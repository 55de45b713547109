/** The control center's record of one agent: every locked section of the
    connection state, as a method and as the function it computes. */
module AgentConnection {
  import opened Common

  type Gen = nat

  type SystemInfo = string

  datatype Info = Info(name: string, os: string, arch: string, system: Option<SystemInfo>, lastSeen: nat)

  datatype Conn = Conn(generation: Gen, connected: bool, closed: bool, cancelled: bool, info: Info)

  /** cancelCtx is a child of the manager's context. */
  predicate ContextDone(c: Conn, global: bool) {
    c.cancelled || global
  }

  predicate ShouldReconnect(c: Conn, generation: Gen, global: bool) {
    c.generation == generation && !c.closed && !ContextDone(c, global)
  }

  predicate CanInstall(c: Conn, global: bool) {
    !c.closed && !ContextDone(c, global)
  }

  function Install(c: Conn, generation: Gen, now: nat): Conn {
    c.(generation := generation, connected := true, info := c.info.(lastSeen := now))
  }

  function MarkDisconnected(c: Conn, generation: Gen): Conn {
    if c.generation == generation then c.(connected := false) else c
  }

  function Stop(c: Conn): Conn {
    c.(closed := true, connected := false)
  }

  /** The generation that messages may be sent over, if there is one. */
  function Current(c: Conn): Option<Gen> {
    if !c.closed && c.connected then Some(c.generation) else None
  }

  /** What a message received by a read pump may change. */
  datatype Update =
    | Seen(now: nat)
    | Agent(hostname: string, os: string, arch: string)
    | System(info: SystemInfo, hostname: string, os: string, arch: string)

  function Named(info: Info, hostname: string, os: string, arch: string): Info {
    info.(name := if hostname != "" then hostname else info.name,
          os := if os != "" then os else info.os,
          arch := if arch != "" then arch else info.arch)
  }

  function Updated(c: Conn, generation: Gen, u: Update): Conn {
    if c.generation != generation then c
    else match u
      case Seen(now) => c.(info := c.info.(lastSeen := now))
      case Agent(hostname, os, arch) => if c.closed then c else c.(info := Named(c.info, hostname, os, arch))
      case System(system, hostname, os, arch) =>
        if c.closed then c else c.(info := Named(c.info.(system := Some(system)), hostname, os, arch))
  }

  class AgentConnection {
    var generation: Gen
    var connected: bool
    var closed: bool
    var cancelled: bool
    var info: Info

    constructor (generation: Gen, info: Info)
      ensures State() == Conn(generation, true, false, false, info)
    {
      this.generation, connected, closed, cancelled, this.info := generation, true, false, false, info;
    }

    function State(): Conn
      reads this
    {
      Conn(generation, connected, closed, cancelled, info)
    }

    method CurrentGeneration() returns (current: Option<Gen>)
      ensures current == Current(State())
    {
      if closed || !connected {
        return None;
      }
      return Some(generation);
    }

    method CheckReconnect(failed: Gen, global: bool) returns (ok: bool)
      ensures ok == ShouldReconnect(State(), failed, global)
    {
      return generation == failed && !closed && !(cancelled || global);
    }

    method InstallGeneration(next: Gen, now: nat, global: bool) returns (replaced: Option<Gen>)
      modifies this
      ensures replaced == if old(CanInstall(State(), global)) then Some(old(generation)) else None
      ensures State() == if replaced.Some? then Install(old(State()), next, now) else old(State())
    {
      if closed || cancelled || global {
        return None;
      }
      replaced := Some(generation);
      generation := next;
      connected := true;
      info := info.(lastSeen := now);
    }

    method MarkAsDisconnected(generation: Gen)
      modifies this
      ensures State() == MarkDisconnected(old(State()), generation)
      ensures old(this.generation) != generation ==> State() == old(State())
    {
      if this.generation == generation {
        connected := false;
      }
    }

    method UpdateLastSeen(generation: Gen, now: nat)
      modifies this
      ensures State() == Updated(old(State()), generation, Seen(now))
      ensures old(this.generation) != generation ==> State() == old(State())
    {
      if this.generation == generation {
        info := info.(lastSeen := now);
      }
    }

    method UpdateAgentInfo(generation: Gen, hostname: string, os: string, arch: string)
      modifies this
      ensures State() == Updated(old(State()), generation, Agent(hostname, os, arch))
      ensures old(this.generation) != generation ==> State() == old(State())
    {
      if this.generation != generation || closed {
        return;
      }
      if hostname != "" {
        info := info.(name := hostname);
      }
      if os != "" {
        info := info.(os := os);
      }
      if arch != "" {
        info := info.(arch := arch);
      }
    }

    method UpdateSystemInfo(generation: Gen, system: SystemInfo, hostname: string, os: string, arch: string)
      modifies this
      ensures State() == Updated(old(State()), generation, System(system, hostname, os, arch))
      ensures old(this.generation) != generation ==> State() == old(State())
    {
      if this.generation != generation || closed {
        return;
      }
      info := info.(system := Some(system));
      if hostname != "" {
        info := info.(name := hostname);
      }
      if os != "" {
        info := info.(os := os);
      }
      if arch != "" {
        info := info.(arch := arch);
      }
    }

    /** The locked part of stop; cancelling the context follows. */
    method MarkStopped() returns (last: Gen)
      modifies this
      ensures State() == Stop(old(State())) && last == old(generation)
    {
      closed := true;
      connected := false;
      last := generation;
    }

    method Cancel()
      modifies this
      ensures State() == old(State()).(cancelled := true)
    {
      cancelled := true;
    }
  }
}
