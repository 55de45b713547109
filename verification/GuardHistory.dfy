/** What the guard's answers mean over whole runs: pruning is invisible, and an
    address is refused for failures exactly while a trip's block lasts. */
module GuardHistory {
  import opened Common
  import opened IpGuard

  datatype Call = AdmitCall | ReleaseCall | FailCall | SucceedCall

  datatype Op = Op(at: Instant, ip: Ip, call: Call)

  function Step(s: State, lim: Limits, op: Op, pruning: bool): State {
    match op.call
    case AdmitCall => Admit(s, lim, op.ip, op.at)
    case ReleaseCall => Release(s, op.ip)
    case FailCall => Fail(s, lim, op.ip, op.at, pruning)
    case SucceedCall => Succeed(s, op.ip)
  }

  function Run(lim: Limits, ops: seq<Op>, pruning: bool): State {
    if ops == [] then State(map[], map[]) else Step(Run(lim, ops[..|ops| - 1], pruning), lim, ops[|ops| - 1], pruning)
  }

  predicate Ordered(ops: seq<Op>) {
    forall i, j | 0 <= i < j < |ops| :: ops[i].at <= ops[j].at
  }

  // ------------------------------------------------------- pruning is invisible

  /** s is t without some records that are stale by now. */
  ghost predicate Related(s: State, t: State, now: Instant, lim: Limits) {
    && s.active == t.active
    && (forall ip | ip in s.failures :: ip in t.failures && t.failures[ip] == s.failures[ip])
    && (forall ip | ip in t.failures && ip !in s.failures :: Stale(t.failures[ip], now, lim))
  }

  lemma RelatedStep(s: State, t: State, lim: Limits, op: Op, before: Instant)
    requires Related(s, t, before, lim) && before <= op.at
    ensures Judge(s, lim, op.ip, op.at) == Judge(t, lim, op.ip, op.at)
    ensures Related(Step(s, lim, op, true), Step(t, lim, op, false), op.at, lim)
  {
    if op.call == FailCall {
      var kept := Pruned(s.failures, op.at, lim);
      assert AfterFail(Get(kept, op.ip), op.at, lim) == AfterFail(Get(t.failures, op.ip), op.at, lim);
    }
  }

  lemma {:induction false} RunsRelated(lim: Limits, ops: seq<Op>, now: Instant)
    requires Ordered(ops) && (ops != [] ==> ops[|ops| - 1].at <= now)
    ensures Related(Run(lim, ops, true), Run(lim, ops, false), now, lim)
  {
    if ops == [] {
    } else {
      var before, op := ops[..|ops| - 1], ops[|ops| - 1];
      RunsRelated(lim, before, op.at);
      RelatedStep(Run(lim, before, true), Run(lim, before, false), lim, op, op.at);
    }
  }

  /** After every run, the guard that prunes and one that never does give the
      same answer to every admission request, now or later. */
  lemma PruningIsInvisible(lim: Limits, ops: seq<Op>, ip: Ip, now: Instant)
    requires Ordered(ops) && (ops != [] ==> ops[|ops| - 1].at <= now)
    ensures Judge(Run(lim, ops, true), lim, ip, now) == Judge(Run(lim, ops, false), lim, ip, now)
  {
    RunsRelated(lim, ops, now);
  }

  /** Why records are pruned, and which: once a failure has been recorded, there are at
      most 1024 of them, or the others are exactly those of addresses that are blocked or
      failed within the last window. */
  lemma PruningBounds(s: State, lim: Limits, ip: Ip, now: Instant)
    ensures var after := Fail(s, lim, ip, now, true).failures;
            && ip in after
            && (|after| <= 1024 || |s.failures| >= 1024)
            && (forall other | other != ip ::
                  other in after <==>
                    && other in s.failures
                    && (|s.failures| < 1024 || now <= s.failures[other].blockedUntil
                        || now <= s.failures[other].windowStart + lim.window))
  {
    hide AfterFail;
  }

  // --------------------------------------------- the history of a single address

  datatype Event = Failure(at: Instant) | Success(at: Instant)

  predicate InOrder(h: seq<Event>) {
    forall i, j | 0 <= i < j < |h| :: h[i].at <= h[j].at
  }

  function RecordOf(h: seq<Event>, lim: Limits): Option<Record> {
    if h == [] then None
    else match h[|h| - 1]
      case Success(_) => None
      case Failure(at) => Some(AfterFail(RecordOf(h[..|h| - 1], lim), at, lim))
  }

  /** The i-th event is a failure that makes the guard block the address. */
  predicate TripAt(h: seq<Event>, i: nat, lim: Limits)
    requires i < |h|
  {
    h[i].Failure? && Trips(RecordOf(h[..i], lim), h[i].at, lim)
  }

  predicate NoSuccessAfter(h: seq<Event>, i: nat)
    requires i < |h|
  {
    forall j | i < j < |h| :: h[j].Failure?
  }

  /** Trip i of a history still blocks at t. */
  ghost predicate Blocks(h: seq<Event>, i: nat, t: Instant, lim: Limits) {
    i < |h| && TripAt(h, i, lim) && t < h[i].at + lim.block && NoSuccessAfter(h, i)
  }

  /** A trip whose block lasts beyond t and that no success has cancelled. */
  ghost predicate ActiveTrip(h: seq<Event>, t: Instant, lim: Limits) {
    exists i: nat :: Blocks(h, i, t, lim)
  }

  lemma TripsOfPrefix(h: seq<Event>, lim: Limits, i: nat)
    requires i < |h| - 1
    ensures var g := h[..|h| - 1];
            && g[i] == h[i] && (TripAt(g, i, lim) <==> TripAt(h, i, lim))
            && (NoSuccessAfter(h, i) <==> NoSuccessAfter(g, i) && h[|h| - 1].Failure?)
  {
    var g := h[..|h| - 1];
    assert g[..i] == h[..i];
    if NoSuccessAfter(g, i) && h[|h| - 1].Failure? {
      forall j | i < j < |h|
        ensures h[j].Failure?
      {
        assert j < |g| ==> g[j] == h[j];
      }
    }
  }

  /** An uncancelled trip is never later than the current window's start. */
  lemma {:induction false} WindowFollowsTrips(h: seq<Event>, lim: Limits, i: nat)
    requires InOrder(h) && i < |h| && TripAt(h, i, lim) && NoSuccessAfter(h, i)
    ensures RecordOf(h, lim).Some? && h[i].at <= RecordOf(h, lim).value.windowStart <= h[|h| - 1].at
  {
    if i == |h| - 1 {
    } else {
      TripsOfPrefix(h, lim, i);
      WindowFollowsTrips(h[..|h| - 1], lim, i);
    }
  }

  lemma BlocksOfPrefix(h: seq<Event>, i: nat, t: Instant, lim: Limits)
    requires i < |h| - 1 && h[|h| - 1].Failure?
    ensures Blocks(h, i, t, lim) <==> Blocks(h[..|h| - 1], i, t, lim)
  {
    hide TripAt, NoSuccessAfter;
    TripsOfPrefix(h, lim, i);
  }

  lemma ActiveTripOfLast(h: seq<Event>, t: Instant, lim: Limits)
    requires InOrder(h) && h != [] && h[|h| - 1].Failure?
    ensures ActiveTrip(h, t, lim) <==>
            ActiveTrip(h[..|h| - 1], t, lim) || (TripAt(h, |h| - 1, lim) && t < h[|h| - 1].at + lim.block)
  {
    hide TripAt, InOrder;
    var g, last := h[..|h| - 1], |h| - 1;
    assert Blocks(h, last, t, lim) <==> TripAt(h, last, lim) && t < h[last].at + lim.block;
    if ActiveTrip(h, t, lim) {
      var i: nat :| Blocks(h, i, t, lim);
      if i < last {
        BlocksOfPrefix(h, i, t, lim);
      }
    }
    if ActiveTrip(g, t, lim) {
      var i: nat :| Blocks(g, i, t, lim);
      BlocksOfPrefix(h, i, t, lim);
    }
  }

  /** The limits under which a block can never be lost early. */
  predicate BlockFitsWindow(lim: Limits) {
    lim.block <= lim.window + 1 || lim.maxFailures <= 1
  }

  /** The shipped limits, one minute for each, are of this kind. */
  lemma DefaultsFit()
    ensures BlockFitsWindow(DEFAULTS)
  {
  }

  /** Under such limits: blocked if and only if some uncancelled trip's block lasts. */
  lemma {:induction false} BlockedIffActiveTrip(h: seq<Event>, lim: Limits, t: Instant)
    requires InOrder(h) && (h != [] ==> h[|h| - 1].at <= t) && BlockFitsWindow(lim)
    ensures Blocked(RecordOf(h, lim), t) <==> ActiveTrip(h, t, lim)
  {
    if h == [] || h[|h| - 1].Success? {
    } else {
      var g, now := h[..|h| - 1], h[|h| - 1].at;
      BlockedIffActiveTrip(g, lim, t);
      ActiveTripOfLast(h, t, lim);
      if ActiveTrip(g, t, lim) {
        var i: nat :| Blocks(g, i, t, lim);
        WindowFollowsTrips(g, lim, i);
      }
    }
  }

  /** A run of n failures at one instant. */
  function Burst(n: nat, at: Instant): seq<Event> {
    seq(n, i => Failure(at))
  }

  lemma {:induction false} BurstRecord(n: nat, at: Instant, lim: Limits)
    requires n < lim.maxFailures
    ensures RecordOf(Burst(n, at), lim) == if n == 0 then None else Some(Record(n, at, 0))
  {
    if n == 0 {
    } else {
      assert Burst(n, at)[..n - 1] == Burst(n - 1, at);
      BurstRecord(n - 1, at, lim);
    }
  }

  /** Without the condition, a failure just after the window of a trip makes the
      guard forget a block that should still last. */
  lemma ForgottenBlock(lim: Limits) returns (h: seq<Event>, t: Instant)
    requires !BlockFitsWindow(lim)
    ensures InOrder(h) && h != [] && h[|h| - 1].at <= t
    ensures ActiveTrip(h, t, lim) && !Blocked(RecordOf(h, lim), t)
  {
    t := 2 + lim.window;
    var burst := Burst(lim.maxFailures, 1);
    h := burst + [Failure(t)];
    BurstRecord(lim.maxFailures - 1, 1, lim);
    assert burst[..|burst| - 1] == Burst(lim.maxFailures - 1, 1);
    assert h[..|burst| - 1] == Burst(lim.maxFailures - 1, 1) && h[..|h| - 1] == burst;
    assert Blocks(h, |burst| - 1, t, lim);
  }

  /** The condition is exact. */
  lemma BlocksExactlyWhenFitting(lim: Limits)
    ensures BlockFitsWindow(lim) <==>
            forall h: seq<Event>, t: Instant | InOrder(h) && (h != [] ==> h[|h| - 1].at <= t) ::
              Blocked(RecordOf(h, lim), t) <==> ActiveTrip(h, t, lim)
  {
    if BlockFitsWindow(lim) {
      forall h: seq<Event>, t: Instant | InOrder(h) && (h != [] ==> h[|h| - 1].at <= t)
        ensures Blocked(RecordOf(h, lim), t) <==> ActiveTrip(h, t, lim)
      {
        BlockedIffActiveTrip(h, lim, t);
      }
    } else {
      var h, t := ForgottenBlock(lim);
    }
  }

  /** The record counts the last failures, all within the current window. */
  lemma {:induction false} CountIsRecent(h: seq<Event>, lim: Limits)
    requires InOrder(h) && RecordOf(h, lim).Some?
    ensures var r := RecordOf(h, lim).value;
            && r.count <= |h| && (r.count < lim.maxFailures || r.count == 0)
            && r.windowStart <= h[|h| - 1].at <= r.windowStart + lim.window
            && forall j | |h| - r.count <= j < |h| :: h[j].Failure? && r.windowStart <= h[j].at
  {
    var g := h[..|h| - 1];
    if RecordOf(g, lim).Some? {
      CountIsRecent(g, lim);
    }
  }

  /** A trip means that the last maxFailures events were failures within one window. */
  lemma TripMeansFailures(h: seq<Event>, lim: Limits, i: nat)
    requires InOrder(h) && i < |h| && TripAt(h, i, lim) && lim.maxFailures > 0
    ensures var first := i + 1 - lim.maxFailures;
            && 0 <= first
            && (forall j | first <= j <= i :: h[j].Failure?)
            && h[i].at - h[first].at <= lim.window
  {
    if RecordOf(h[..i], lim).Some? {
      CountIsRecent(h[..i], lim);
    }
  }

  /** The first failures after a success, or ever, are counted from the first of them. */
  lemma {:induction false} CountsFromTheFirst(g: seq<Event>, f: seq<Event>, lim: Limits)
    requires RecordOf(g, lim).None? && 0 < |f| < lim.maxFailures && InOrder(f)
    requires (forall i | 0 <= i < |f| :: f[i].Failure?) && f[|f| - 1].at - f[0].at <= lim.window
    ensures RecordOf(g + f, lim) == Some(Record(|f|, f[0].at, 0))
  {
    var h := g + f;
    assert h[..|h| - 1] == g + f[..|f| - 1] && h[|h| - 1] == f[|f| - 1];
    if |f| == 1 {
      assert g + f[..0] == g;
    } else {
      CountsFromTheFirst(g, f[..|f| - 1], lim);
    }
  }

  /** So maxFailures of them within one window always make a trip, which blocks the
      address at once for the block's whole length. */
  lemma EnoughFailuresTrip(g: seq<Event>, f: seq<Event>, lim: Limits)
    requires RecordOf(g, lim).None? && |f| == lim.maxFailures > 0 && InOrder(f)
    requires (forall i | 0 <= i < |f| :: f[i].Failure?) && f[|f| - 1].at - f[0].at <= lim.window
    ensures TripAt(g + f, |g + f| - 1, lim)
    ensures forall t: Instant :: Blocked(RecordOf(g + f, lim), t) <==> t < f[|f| - 1].at + lim.block
  {
    hide RecordOf, TripAt;
    var most, last := f[..|f| - 1], f[|f| - 1];
    assert g + f == (g + most) + [Failure(last.at)];
    RecordSnoc(g + most, last.at, lim);
    if |f| == 1 {
      assert g + most == g;
    } else {
      CountsFromTheFirst(g, most, lim);
    }
  }

  lemma RecordSnoc(h: seq<Event>, at: Instant, lim: Limits)
    ensures RecordOf(h + [Failure(at)], lim) == Some(AfterFail(RecordOf(h, lim), at, lim))
    ensures TripAt(h + [Failure(at)], |h|, lim) <==> Trips(RecordOf(h, lim), at, lim)
  {
    assert (h + [Failure(at)])[..|h|] == h;
  }

  /** With the shipped limits: twenty failures within a minute, blocked for a minute. */
  lemma TwentyFailuresTrip(f: seq<Event>)
    requires |f| == 20 && InOrder(f) && (forall i | 0 <= i < 20 :: f[i].Failure?)
    requires f[19].at - f[0].at <= 60_000_000_000
    ensures TripAt(f, 19, DEFAULTS)
    ensures forall t: Instant :: Blocked(RecordOf(f, DEFAULTS), t) <==> t < f[19].at + 60_000_000_000
  {
    hide TripAt, RecordOf, Blocked, InOrder;
    NothingRecorded(DEFAULTS);
    assert [] + f == f;
    EnoughFailuresTrip([], f, DEFAULTS);
  }

  lemma NothingRecorded(lim: Limits)
    ensures RecordOf([], lim).None?
  {
  }

  /** From the lo-th event on: all failures without a trip, within one window's length. */
  predicate Quiet(h: seq<Event>, lo: nat, lim: Limits) {
    && lo < |h|
    && (forall j | lo <= j < |h| :: h[j].Failure? && !TripAt(h, j, lim))
    && h[|h| - 1].at - h[lo].at <= lim.window
  }

  lemma {:induction false} QuietCount(h: seq<Event>, lo: nat, lim: Limits)
    requires InOrder(h) && Quiet(h, lo, lim)
    ensures var r := RecordOf(h, lim); var n := |h| - lo;
            && r.Some? && r.value.count < lim.maxFailures
            && (n <= r.value.count
                || (h[lo].at <= r.value.windowStart && n <= r.value.count + lim.maxFailures - 1))
  {
    var g := h[..|h| - 1];
    assert !TripAt(h, |h| - 1, lim);
    if lo < |g| {
      forall j | lo <= j < |g|
        ensures g[j].Failure? && !TripAt(g, j, lim)
      {
        assert g[..j] == h[..j];
      }
      QuietCount(g, lo, lim);
    }
  }

  /** Between trips and successes, an interval of one window's length holds at
      most twice one less than maxFailures failures. */
  lemma QuietIntervalIsShort(h: seq<Event>, lo: nat, hi: nat, lim: Limits)
    requires InOrder(h) && lo < hi <= |h|
    requires forall j | lo <= j < hi :: h[j].Failure? && !TripAt(h, j, lim)
    requires h[hi - 1].at - h[lo].at <= lim.window
    ensures hi - lo <= 2 * (lim.maxFailures - 1)
  {
    var g := h[..hi];
    forall j | lo <= j < hi
      ensures g[j].Failure? && !TripAt(g, j, lim)
    {
      assert g[..j] == h[..j];
    }
    QuietCount(g, lo, lim);
  }

  // ---------------------------------------- from one address to the whole guard

  /** The failures and successes of one address in a run. */
  function EventsOf(ops: seq<Op>, ip: Ip): seq<Event> {
    if ops == [] then []
    else
      var op, before := ops[|ops| - 1], EventsOf(ops[..|ops| - 1], ip);
      if op.ip != ip then before
      else match op.call
        case FailCall => before + [Failure(op.at)]
        case SucceedCall => before + [Success(op.at)]
        case _ => before
  }

  lemma {:induction false} EventsInOrder(ops: seq<Op>, ip: Ip)
    requires Ordered(ops)
    ensures InOrder(EventsOf(ops, ip))
    ensures EventsOf(ops, ip) != [] ==> ops != [] && EventsOf(ops, ip)[|EventsOf(ops, ip)| - 1].at <= ops[|ops| - 1].at
  {
    if ops == [] {
    } else {
      EventsInOrder(ops[..|ops| - 1], ip);
      var h, g := EventsOf(ops, ip), EventsOf(ops[..|ops| - 1], ip);
      assert h == g || (|h| == |g| + 1 && h[..|g|] == g && h[|g|].at == ops[|ops| - 1].at);
      hide EventsOf;
    }
  }

  /** One call changes the record of its own address only, and that as the address's history says. */
  lemma StepRecord(s: State, lim: Limits, op: Op, ip: Ip, h: seq<Event>)
    requires Get(s.failures, ip) == RecordOf(h, lim)
    ensures Get(Step(s, lim, op, false).failures, ip)
            == RecordOf(if op.ip != ip then h else if op.call.FailCall? then h + [Failure(op.at)]
                        else if op.call.SucceedCall? then h + [Success(op.at)] else h, lim)
  {
    assert (h + [Failure(op.at)])[..|h|] == h && (h + [Success(op.at)])[..|h|] == h;
    hide AfterFail, Judge;
  }

  lemma {:induction false} RecordsPerAddress(lim: Limits, ops: seq<Op>, ip: Ip)
    ensures Get(Run(lim, ops, false).failures, ip) == RecordOf(EventsOf(ops, ip), lim)
  {
    if ops == [] {
    } else {
      var before, op := ops[..|ops| - 1], ops[|ops| - 1];
      RecordsPerAddress(lim, before, ip);
      StepRecord(Run(lim, before, false), lim, op, ip, EventsOf(before, ip));
      hide RecordOf, Step;
    }
  }

  /** The guard as it runs, pruning included: whatever happened, on any number of
      addresses, it refuses an address for failures if and only if a trip of that
      address is in force. */
  lemma RefusedIffActiveTrip(lim: Limits, ops: seq<Op>, ip: Ip, now: Instant)
    requires Ordered(ops) && (ops != [] ==> ops[|ops| - 1].at <= now) && BlockFitsWindow(lim)
    ensures Judge(Run(lim, ops, true), lim, ip, now).TooManyFailures? <==> ActiveTrip(EventsOf(ops, ip), now, lim)
  {
    PruningIsInvisible(lim, ops, ip, now);
    RecordsPerAddress(lim, ops, ip);
    EventsInOrder(ops, ip);
    BlockedIffActiveTrip(EventsOf(ops, ip), lim, now);
  }

  lemma RunSnoc(lim: Limits, ops: seq<Op>, op: Op, ip: Ip)
    ensures Run(lim, ops + [op], true) == Step(Run(lim, ops, true), lim, op, true)
    ensures EventsOf(ops + [op], ip)
            == EventsOf(ops, ip) + (if op.ip == ip && op.call.FailCall? then [Failure(op.at)]
                                    else if op.ip == ip && op.call.SucceedCall? then [Success(op.at)] else [])
  {
    assert (ops + [op])[..|ops|] == ops;
  }

  /** The running guard counts the next failure as a trip exactly if the address's
      history says so. */
  lemma TripsAsHistorySays(lim: Limits, ops: seq<Op>, ip: Ip, now: Instant)
    requires Ordered(ops) && (ops != [] ==> ops[|ops| - 1].at <= now)
    ensures var h := EventsOf(ops, ip);
            Trips(Get(Pruned(Run(lim, ops, true).failures, now, lim), ip), now, lim)
            <==> TripAt(h + [Failure(now)], |h|, lim)
  {
    RunsRelated(lim, ops, now);
    RecordsPerAddress(lim, ops, ip);
    RecordSnoc(EventsOf(ops, ip), now, lim);
    hide RecordOf, EventsOf, Run;
  }
}
