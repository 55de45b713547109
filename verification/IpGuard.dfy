/** The agent's per-address guard: connection slots and failure windows. */
module IpGuard {
  import opened Common

  type Ip = string

  /** Readings of a monotone clock; 0 stands for Go's zero time, before every reading. */
  type Instant = t: int | t > 0 witness 1

  datatype Record = Record(count: nat, windowStart: nat, blockedUntil: nat)

  datatype Limits = Limits(maxActive: nat, maxFailures: nat, window: nat, block: nat)

  const MINUTE: nat := 60_000_000_000

  const DEFAULTS := Limits(16, 20, MINUTE, MINUTE)

  const PRUNE_AT := 1024

  datatype State = State(active: map<Ip, nat>, failures: map<Ip, Record>)

  datatype Verdict = Admitted | TooManyFailures | TooManyConnections

  function Reason(v: Verdict): string {
    match v
    case Admitted => ""
    case TooManyFailures => "too many failed authentication attempts"
    case TooManyConnections => "too many simultaneous connections"
  }

  // ------------------------------------------------------- one address's record

  predicate Blocked(rec: Option<Record>, now: Instant) {
    rec.Some? && now < rec.value.blockedUntil
  }

  predicate Expired(rec: Option<Record>, now: Instant, lim: Limits) {
    rec.None? || now - rec.value.windowStart > lim.window
  }

  predicate Trips(rec: Option<Record>, now: Instant, lim: Limits) {
    (if Expired(rec, now, lim) then 0 else rec.value.count) + 1 >= lim.maxFailures
  }

  function AfterFail(rec: Option<Record>, now: Instant, lim: Limits): Record {
    if Trips(rec, now, lim) then Record(0, now, now + lim.block)
    else if Expired(rec, now, lim) then Record(1, now, 0)
    else rec.value.(count := rec.value.count + 1)
  }

  predicate Stale(rec: Record, now: Instant, lim: Limits) {
    now > rec.blockedUntil && now - rec.windowStart > lim.window
  }

  // ------------------------------------------------------------ the whole guard

  function Judge(s: State, lim: Limits, ip: Ip, now: Instant): Verdict {
    if Blocked(Get(s.failures, ip), now) then TooManyFailures
    else if Count(s.active, ip) >= lim.maxActive then TooManyConnections
    else Admitted
  }

  function Count(active: map<Ip, nat>, ip: Ip): nat {
    if ip in active then active[ip] else 0
  }

  function Admit(s: State, lim: Limits, ip: Ip, now: Instant): State {
    if Judge(s, lim, ip, now).Admitted? then s.(active := s.active[ip := Count(s.active, ip) + 1]) else s
  }

  function Release(s: State, ip: Ip): State {
    if Count(s.active, ip) <= 1 then s.(active := s.active - {ip})
    else s.(active := s.active[ip := s.active[ip] - 1])
  }

  function Pruned(failures: map<Ip, Record>, now: Instant, lim: Limits): map<Ip, Record> {
    if |failures| < PRUNE_AT then failures
    else map ip | ip in failures && !Stale(failures[ip], now, lim) :: failures[ip]
  }

  function Fail(s: State, lim: Limits, ip: Ip, now: Instant, pruning: bool): State {
    var kept := if pruning then Pruned(s.failures, now, lim) else s.failures;
    s.(failures := kept[ip := AfterFail(Get(kept, ip), now, lim)])
  }

  function Succeed(s: State, ip: Ip): State {
    s.(failures := s.failures - {ip})
  }

  class Guard {
    var active: map<Ip, nat>
    var failures: map<Ip, Record>
    const limits: Limits

    constructor (limits: Limits)
      ensures Contents() == State(map[], map[]) && this.limits == limits
    {
      active := map[];
      failures := map[];
      this.limits := limits;
    }

    function Contents(): State
      reads this
    {
      State(active, failures)
    }

    method AdmitConnection(ip: Ip, now: Instant) returns (ok: bool, reason: string)
      modifies this
      ensures Contents() == Admit(old(Contents()), limits, ip, now)
      ensures ok == old(Judge(Contents(), limits, ip, now)).Admitted?
      ensures reason == Reason(old(Judge(Contents(), limits, ip, now)))
      ensures ok <==> reason == ""
      ensures reason == "too many failed authentication attempts" <==>
                ip in failures && now < failures[ip].blockedUntil
    {
      if ip in failures && now < failures[ip].blockedUntil {
        return false, "too many failed authentication attempts";
      }
      if (if ip in active then active[ip] else 0) >= limits.maxActive {
        return false, "too many simultaneous connections";
      }
      active := active[ip := (if ip in active then active[ip] else 0) + 1];
      return true, "";
    }

    method ReleaseConnection(ip: Ip)
      modifies this
      ensures Contents() == Release(old(Contents()), ip)
    {
      if (if ip in active then active[ip] else 0) <= 1 {
        active := active - {ip};
        return;
      }
      active := active[ip := active[ip] - 1];
    }

    method RecordFailure(ip: Ip, now: Instant)
      modifies this
      ensures Contents() == Fail(old(Contents()), limits, ip, now, true)
    {
      PruneLocked(now);
      var rec: Record;
      if ip !in failures || now - failures[ip].windowStart > limits.window {
        rec := Record(0, now, 0);
      } else {
        rec := failures[ip];
      }
      rec := rec.(count := rec.count + 1);
      if rec.count >= limits.maxFailures {
        rec := rec.(blockedUntil := now + limits.block);
        rec := rec.(count := 0);
        rec := rec.(windowStart := now);
      }
      failures := failures[ip := rec];
    }

    method RecordSuccess(ip: Ip)
      modifies this
      ensures Contents() == Succeed(old(Contents()), ip)
    {
      failures := failures - {ip};
    }

    method PruneLocked(now: Instant)
      modifies this`failures
      ensures failures == Pruned(old(failures), now, limits)
    {
      if |failures| < PRUNE_AT {
        return;
      }
      var pending := failures.Keys;
      while pending != {}
        invariant pending <= failures.Keys <= old(failures).Keys
        invariant forall ip | ip in failures :: failures[ip] == old(failures)[ip]
        invariant forall ip | ip in old(failures) && ip !in pending ::
                    ip in failures <==> !Stale(old(failures)[ip], now, limits)
        decreases pending
      {
        var ip :| ip in pending;
        var rec := failures[ip];
        if now > rec.blockedUntil && now - rec.windowStart > limits.window {
          failures := failures - {ip};
        }
        pending := pending - {ip};
      }
    }
  }
}
