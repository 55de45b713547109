/** The control center's audit log: a bounded list in memory beside a table whose
    rows are numbered automatically. */
module AuditRing {
  import opened Common

  const DEFAULT_CAPACITY: nat := 1000

  datatype Event = Event(action: string, agent: string, user: string, details: string, status: string)

  datatype Entry = Entry(id: int, event: Event)

  /** rows in insertion order; lastRow is the highest number ever given out. */
  datatype State = State(entries: seq<Entry>, nextId: int, rows: seq<Entry>, lastRow: nat)

  function Last<T>(s: seq<T>, n: nat): seq<T> {
    if |s| <= n then s else s[|s| - n..]
  }

  function WithStatus(e: Event): Event {
    if e.status == "" then e.(status := "success") else e
  }

  /** Log with a successful insert. */
  function Logged(s: State, capacity: nat, e: Event): State {
    var row := s.lastRow + 1;
    var entry := Entry(row, WithStatus(e));
    State(Last(s.entries + [entry], capacity), Max(s.nextId + 1, row + 1), s.rows + [entry], row)
  }

  function Cleared(s: State): State {
    s.(entries := [], rows := [])
  }

  /** The selected limit of a request for recent entries. */
  function Limit(limit: int, capacity: nat): nat {
    if limit <= 0 || limit > capacity then capacity else limit
  }

  /** Appending to a list that fits, without the oldest entry if it is full. */
  lemma RingAppend(entries: seq<Entry>, entry: Entry, capacity: nat)
    requires |entries| <= capacity && capacity > 0
    ensures Last(entries + [entry], capacity) == (if |entries| >= capacity then entries[1..] else entries) + [entry]
  {
  }

  class Logger {
    var entries: seq<Entry>
    var nextId: int
    var rows: seq<Entry>
    var lastRow: nat
    const capacity: nat

    /** A logger on an empty table; earlier rows may have been deleted from it. */
    constructor (requested: int, lastRow: nat)
      ensures Valid() && Contents() == State([], 1, [], lastRow)
      ensures capacity == (if requested <= 0 then 1000 else requested)
    {
      entries, nextId, rows, this.lastRow := [], 1, [], lastRow;
      capacity := if requested <= 0 then DEFAULT_CAPACITY else requested;
    }

    predicate Valid()
      reads this
    {
      capacity > 0 && |entries| <= capacity
    }

    function Contents(): State
      reads this
    {
      State(entries, nextId, rows, lastRow)
    }

    method Insert(e: Event) returns (id: nat)
      modifies this`rows, this`lastRow
      ensures id == old(lastRow) + 1 == lastRow
      ensures rows == old(rows) + [Entry(id, e)]
    {
      id := lastRow + 1;
      rows := rows + [Entry(id, e)];
      lastRow := id;
    }

    method Log(e: Event)
      requires Valid()
      modifies this
      ensures Valid() && Contents() == Logged(old(Contents()), capacity, e)
      ensures rows != [] && var logged := rows[|rows| - 1].event;
              logged == e.(status := logged.status) && logged.status == (if e.status == "" then "success" else e.status)
    {
      hide Last;
      RingAppend(entries, Entry(lastRow + 1, WithStatus(e)), capacity);
      var event := e;
      if event.status == "" {
        event := event.(status := "success");
      }
      var fallback := nextId;
      nextId := nextId + 1;
      var entry := Entry(fallback, event);
      var id := Insert(event);
      if id > 0 {
        entry := entry.(id := id);
        if nextId <= id {
          nextId := id + 1;
        }
      }
      if |entries| >= capacity {
        entries := entries[1..] + [entry];
      } else {
        entries := entries + [entry];
      }
    }

    method Clear()
      requires Valid()
      modifies this
      ensures Valid() && Contents() == Cleared(old(Contents()))
      ensures entries == [] && rows == [] && nextId == old(nextId) && lastRow == old(lastRow)
    {
      rows := [];
      entries := [];
    }

    /** SELECT ... ORDER BY id DESC LIMIT n. */
    method NewestFirst(limit: nat) returns (found: array<Entry>)
      ensures fresh(found) && found.Length == Min(limit, |rows|)
      ensures forall i | 0 <= i < found.Length :: found[i] == rows[|rows| - 1 - i]
    {
      found := new Entry[Min(limit, |rows|)](i requires 0 <= i < |rows| reads this => rows[|rows| - 1 - i]);
    }

    method TurnAround(found: array<Entry>)
      modifies found
      ensures forall i | 0 <= i < found.Length :: found[i] == old(found[found.Length - 1 - i])
    {
      var n := found.Length;
      var left, right := 0, n - 1;
      while left < right
        invariant 0 <= left <= right + 1 && left + right == n - 1
        invariant forall i | 0 <= i < left :: found[i] == old(found[n - 1 - i])
        invariant forall i | right < i < n :: found[i] == old(found[n - 1 - i])
        invariant forall i | left <= i <= right :: found[i] == old(found[i])
        decreases right - left
      {
        found[left], found[right] := found[right], found[left];
        left, right := left + 1, right - 1;
      }
    }

    /** The database path: the newest rows, turned around in place. */
    method GetRecentFromDB(limit: nat) returns (recent: seq<Entry>)
      ensures recent == Last(rows, limit)
    {
      var found := NewestFirst(limit);
      var n := found.Length;
      TurnAround(found);
      recent := found[..];
      assert forall i | 0 <= i < n :: recent[i] == rows[|rows| - n + i];
    }

    /** The memory path. */
    method GetRecentFromMemory(requested: nat) returns (recent: seq<Entry>)
      ensures recent == Last(entries, Min(requested, capacity))
    {
      var limit := requested;
      if limit > capacity {
        limit := capacity;
      }
      var total := |entries|;
      if total == 0 {
        return [];
      }
      var start := total - limit;
      if start < 0 {
        start := 0;
      }
      return entries[start..];
    }

    method GetRecent(requested: int, fromDB: bool) returns (recent: seq<Entry>)
      ensures recent == Last(if fromDB then rows else entries, Limit(requested, capacity))
      ensures 0 < requested <= capacity ==> |recent| == Min(requested, |if fromDB then rows else entries|)
      ensures requested <= 0 || requested > capacity ==> |recent| == Min(capacity, |if fromDB then rows else entries|)
    {
      var limit := requested;
      if limit <= 0 {
        limit := capacity;
      }
      if limit > capacity {
        limit := capacity;
      }
      if fromDB {
        recent := GetRecentFromDB(limit);
      } else {
        recent := GetRecentFromMemory(limit);
      }
    }
  }

  // ------------------------------------------------------------------- agreement

  datatype Call = LogCall(event: Event) | ClearCall

  function Run(capacity: nat, lastRow: nat, calls: seq<Call>): State {
    if calls == [] then State([], 1, [], lastRow)
    else
      var before := Run(capacity, lastRow, calls[..|calls| - 1]);
      match calls[|calls| - 1]
      case LogCall(e) => Logged(before, capacity, e)
      case ClearCall => Cleared(before)
  }

  /** The events logged since the last Clear. */
  function Since(calls: seq<Call>): seq<Event> {
    if calls == [] then []
    else match calls[|calls| - 1]
      case LogCall(e) => Since(calls[..|calls| - 1]) + [WithStatus(e)]
      case ClearCall => []
  }

  predicate Increasing(entries: seq<Entry>) {
    forall i, j | 0 <= i < j < |entries| :: entries[i].id < entries[j].id
  }

  lemma LastOfLast<T>(s: seq<T>, n: nat, m: nat)
    requires n <= m
    ensures Last(Last(s, m), n) == Last(s, n)
  {
  }

  lemma LastIndex<T>(s: seq<T>, n: nat)
    ensures |Last(s, n)| == Min(n, |s|)
    ensures forall i | 0 <= i < |Last(s, n)| :: Last(s, n)[i] == s[|s| - |Last(s, n)| + i]
  {
  }

  lemma LastSnoc<T>(s: seq<T>, x: T, n: nat)
    requires n > 0
    ensures Last(Last(s, n) + [x], n) == Last(s + [x], n)
  {
  }

  ghost predicate Follows(s: State, capacity: nat, events: seq<Event>) {
    && s.entries == Last(s.rows, capacity)
    && Recent(s.rows, events)
    && (forall i | 0 <= i < |s.rows| :: s.rows[i].id <= s.lastRow)
    && (s.rows != [] ==> s.lastRow < s.nextId)
  }

  lemma RingStep(s: State, capacity: nat, events: seq<Event>, e: Event)
    requires capacity > 0 && Follows(s, capacity, events)
    ensures Follows(Logged(s, capacity, e), capacity, events + [WithStatus(e)])
  {
    var entry := Entry(s.lastRow + 1, WithStatus(e));
    LastSnoc(s.rows, entry, capacity);
    forall i | 0 <= i < |s.rows| + 1
      ensures (s.rows + [entry])[i].event == (events + [WithStatus(e)])[i] && (s.rows + [entry])[i].id <= s.lastRow + 1
      ensures i < |s.rows| ==> (s.rows + [entry])[i].id <= s.lastRow
    {
    }
    hide Last, WithStatus;
  }

  /** In every run, the rows are exactly the events since the last Clear, with
      strictly increasing numbers below the next one, and the list in memory is
      the last of them that fit. */
  lemma {:induction false} RingFollowsTable(capacity: nat, lastRow: nat, calls: seq<Call>)
    requires capacity > 0
    ensures Follows(Run(capacity, lastRow, calls), capacity, Since(calls))
  {
    if calls == [] {
    } else {
      var before := Run(capacity, lastRow, calls[..|calls| - 1]);
      RingFollowsTable(capacity, lastRow, calls[..|calls| - 1]);
      if calls[|calls| - 1].LogCall? {
        RingStep(before, capacity, Since(calls[..|calls| - 1]), calls[|calls| - 1].event);
      }
    }
    hide Last;
  }

  /** Both paths of a request for recent entries give the same answer: the last
      events since Clear, as many as asked for, held and logged, in order, with
      strictly increasing numbers. */
  lemma BothPathsAgree(capacity: nat, lastRow: nat, calls: seq<Call>, requested: int)
    requires capacity > 0
    ensures var s := Run(capacity, lastRow, calls);
            var limit := Limit(requested, capacity);
            && Last(s.entries, limit) == Last(s.rows, limit)
            && Recent(Last(s.rows, limit), Last(Since(calls), limit))
            && |Last(s.rows, limit)| == Min(limit, |Since(calls)|)
  {
    RingFollowsTable(capacity, lastRow, calls);
    var s := Run(capacity, lastRow, calls);
    LastOfLast(s.rows, Limit(requested, capacity), capacity);
    RecentOf(s.rows, Since(calls), Limit(requested, capacity));
    hide Run, Since, Last, Recent, Increasing;
  }

  /** Entries of these events, with strictly increasing numbers. */
  predicate Recent(entries: seq<Entry>, events: seq<Event>) {
    && |entries| == |events|
    && (forall i | 0 <= i < |entries| :: entries[i].event == events[i])
    && Increasing(entries)
  }

  lemma RecentOf(entries: seq<Entry>, events: seq<Event>, n: nat)
    requires Recent(entries, events)
    ensures Recent(Last(entries, n), Last(events, n)) && |Last(entries, n)| == Min(n, |events|)
  {
    LastIndex(entries, n);
    LastIndex(events, n);
    hide Last;
  }

  function Logs(calls: seq<Call>): nat {
    if calls == [] then 0 else Logs(calls[..|calls| - 1]) + (if calls[|calls| - 1].LogCall? then 1 else 0)
  }

  /** Every event gets a number of its own, one after the other: clearing reuses none. */
  lemma {:induction false} NumbersGoOn(capacity: nat, lastRow: nat, calls: seq<Call>)
    ensures var s := Run(capacity, lastRow, calls);
            && s.lastRow == lastRow + Logs(calls)
            && s.nextId == (if Logs(calls) == 0 then 1 else s.lastRow + 1)
            && forall i | 0 <= i < |s.rows| :: s.rows[i].id == s.lastRow - |s.rows| + 1 + i
  {
    if calls == [] {
    } else {
      NumbersGoOn(capacity, lastRow, calls[..|calls| - 1]);
    }
    hide Last, WithStatus;
  }
}
