/** Directory listings: the agent's pages and the control center's merge loop. */
module Paging {
  import opened Common

  const DEFAULT_ENTRIES: int := 50
  const MAX_PAGE: int := 1000
  const PAGE_SIZE: int := 500
  const MAX_LISTED: int := 5000
  const MAX_REQUESTS: nat := 12  // MAX_LISTED / PAGE_SIZE + 2

  /** A directory entry, in name order; its details may be unreadable. */
  datatype Entry = Entry(name: string, readable: bool)

  datatype Page = Page(entries: seq<Entry>, total: int, nextOffset: int, hasMore: bool)

  function Readable(entries: seq<Entry>): seq<Entry> {
    if entries == [] then []
    else
      var last := entries[|entries| - 1];
      Readable(entries[..|entries| - 1]) + (if last.readable then [last] else [])
  }

  lemma {:induction false} ReadableAppend(a: seq<Entry>, b: seq<Entry>)
    ensures Readable(a + b) == Readable(a) + Readable(b)
  {
    if b == [] {
      assert a + b == a;
    } else {
      var s := a + b;
      assert s[..|s| - 1] == a + b[..|b| - 1];
      ReadableAppend(a, b[..|b| - 1]);
    }
  }

  lemma {:induction false} ReadableAll(entries: seq<Entry>)
    requires forall i | 0 <= i < |entries| :: entries[i].readable
    ensures Readable(entries) == entries
  {
    if entries == [] {
    } else {
      ReadableAll(entries[..|entries| - 1]);
    }
  }

  /** Exactly the readable entries are left, as often as they occur. */
  lemma {:induction false} ReadableKeeps(entries: seq<Entry>, e: Entry)
    ensures multiset(Readable(entries))[e] == if e.readable then multiset(entries)[e] else 0
  {
    if entries == [] {
    } else {
      assert entries == entries[..|entries| - 1] + [entries[|entries| - 1]];
      ReadableKeeps(entries[..|entries| - 1], e);
    }
  }

  // ------------------------------------------------------------------- the agent

  /** How many entries a page covers for a requested limit. */
  function PageLimit(limit: int): int {
    Min(if limit <= 0 then DEFAULT_ENTRIES else limit, MAX_PAGE)
  }

  /** The page of a directory from an offset on: the readable ones of the next
      entries, the true total, and where the following page starts. */
  function PageOf(dir: seq<Entry>, offset: nat, limit: int): Page {
    var start := Min(offset, |dir|);
    var end := Min(start + PageLimit(limit), |dir|);
    Page(Readable(dir[start..end]), |dir|, end, end < |dir|)
  }

  lemma NothingReadable(dir: seq<Entry>, from: nat)
    requires from <= |dir|
    ensures Readable(dir[from..from]) == []
  {
  }

  lemma ReadableNext(dir: seq<Entry>, from: nat, to: nat)
    requires from <= to < |dir|
    ensures Readable(dir[from..to + 1]) == Readable(dir[from..to]) + (if dir[to].readable then [dir[to]] else [])
  {
    assert dir[from..to + 1][..to - from] == dir[from..to];
  }

  /** The agent's answer; there is no directory if the path has none or it cannot be read. */
  method ListDir(found: Option<seq<Entry>>, offset: int, requested: int) returns (page: Option<Page>)
    ensures page == if offset < 0 || found.None? then None else Some(PageOf(found.value, offset, requested))
    ensures page.Some? ==>
              var dir, next := found.value, page.value.nextOffset;
              && page.value.total == |dir| && page.value.hasMore == (next < |dir|)
              && (offset >= |dir| ==> page.value.entries == [] && next == |dir|)
              && (offset < |dir| ==>
                    && next == Min(offset + (if requested <= 0 then 50 else if requested > 1000 then 1000 else requested), |dir|)
                    && page.value.entries == Readable(dir[offset..next]))
  {
    hide Readable;
    if offset < 0 {
      return None;
    }
    if found.None? {
      return None;
    }
    var dir := found.value;
    var limit := requested;
    if limit <= 0 {
      limit := DEFAULT_ENTRIES;
    }
    if limit > MAX_PAGE {
      limit := MAX_PAGE;
    }
    var total := |dir|;
    var start := offset;
    if start > total {
      start := total;
    }
    var end := start + limit;
    if end > total {
      end := total;
    }
    var entries: seq<Entry> := [];
    NothingReadable(dir, start);
    for i := start to end
      invariant entries == Readable(dir[start..i])
    {
      ReadableNext(dir, start, i);
      if !dir[i].readable {
        continue;
      }
      entries := entries + [dir[i]];
    }
    return Some(Page(entries, total, end, end < total));
  }

  // ---------------------------------------------------------- the control center

  /** Any agent: its answer, if any, to the k-th request, which names an offset. */
  type Agent = (nat, int) -> Option<Page>

  /** The offset of the k-th request, when each earlier one led to it. */
  function OffsetAt(agent: Agent, k: nat): int {
    if k == 0 then 0
    else match agent(k - 1, OffsetAt(agent, k - 1))
      case None => 0
      case Some(page) => page.nextOffset
  }

  function PageAt(agent: Agent, k: nat): Option<Page> {
    agent(k, OffsetAt(agent, k))
  }

  /** The entries of the first k pages. */
  function Merged(agent: Agent, k: nat): seq<Entry> {
    if k == 0 then []
    else Merged(agent, k - 1) + (if PageAt(agent, k - 1).Some? then PageAt(agent, k - 1).value.entries else [])
  }

  /** After its k-th page the listing continues. */
  predicate Continues(agent: Agent, k: nat) {
    && k + 1 < MAX_REQUESTS
    && PageAt(agent, k).Some?
    && PageAt(agent, k).value.hasMore
    && PageAt(agent, k).value.nextOffset > OffsetAt(agent, k)
    && |Merged(agent, k + 1)| < MAX_LISTED
  }

  /** The loop asks for pages as long as the listing continues: at most
      MAX_REQUESTS of them, at strictly increasing offsets, whatever the agent
      answers; the result is all their entries with the last page's bookkeeping. */
  method ListDirPages(agent: Agent) returns (merged: Option<Page>, requests: nat)
    ensures 1 <= requests <= 12
    ensures forall k | 0 <= k < requests - 1 :: Continues(agent, k)
    ensures !Continues(agent, requests - 1)
    ensures merged.Some? <==> PageAt(agent, requests - 1).Some?
    ensures merged.Some? ==>
              var last := PageAt(agent, requests - 1).value;
              var all := Merged(agent, requests);
              merged.value == Page(all, if last.total < |all| then |all| else last.total, last.nextOffset, last.hasMore)
  {
    merged := None;
    requests := 0;
    var offset := 0;
    while requests < MAX_REQUESTS
      invariant requests <= MAX_REQUESTS
      invariant offset == OffsetAt(agent, requests)
      invariant requests < MAX_REQUESTS ==> forall k | 0 <= k < requests :: Continues(agent, k)
      invariant requests == MAX_REQUESTS ==>
                  (forall k | 0 <= k < requests - 1 :: Continues(agent, k)) && PageAt(agent, requests - 1).Some?
      invariant requests == 0 ==> merged.None?
      invariant requests > 0 ==>
                  && PageAt(agent, requests - 1).Some?
                  && merged == Some(PageAt(agent, requests - 1).value.(entries := Merged(agent, requests)))
    {
      var reply := agent(requests, offset);
      requests := requests + 1;
      if reply.None? {
        return None, requests;
      }
      var page := reply.value;
      if merged.None? {
        assert [] + page.entries == page.entries;
        merged := Some(page);
      } else {
        merged := Some(Page(merged.value.entries + page.entries, page.total, page.nextOffset, page.hasMore));
      }
      if !page.hasMore || page.nextOffset <= offset || |merged.value.entries| >= MAX_LISTED {
        break;
      }
      offset := page.nextOffset;
    }
    if merged.value.total < |merged.value.entries| {
      merged := Some(merged.value.(total := |merged.value.entries|));
    }
  }

  /** Whatever the agent answers, the offsets requested strictly increase. */
  lemma {:induction false} OffsetsIncrease(agent: Agent, requests: nat, i: nat, j: nat)
    requires forall k | 0 <= k < requests - 1 :: Continues(agent, k)
    requires i < j < requests
    ensures OffsetAt(agent, i) < OffsetAt(agent, j)
  {
    assert Continues(agent, j - 1);
    if i == j - 1 {
    } else {
      OffsetsIncrease(agent, requests, i, j - 1);
    }
  }

  // -------------------------------------------------------------- both together

  function Honest(dir: seq<Entry>): Agent {
    (k: nat, offset: int) => if offset < 0 then None else Some(PageOf(dir, offset, PAGE_SIZE))
  }

  function Covered(dir: seq<Entry>, k: nat): nat {
    Min(k * 500, |dir|)
  }

  lemma PageOfCovered(dir: seq<Entry>, k: nat)
    ensures Covered(dir, k) <= Covered(dir, k + 1) <= |dir|
    ensures var from, to := Covered(dir, k), Covered(dir, k + 1);
            PageOf(dir, from, PAGE_SIZE) == Page(Readable(dir[from..to]), |dir|, to, to < |dir|)
  {
    hide Readable;
  }

  lemma ReadableSplit(dir: seq<Entry>, from: nat, to: nat)
    requires from <= to <= |dir|
    ensures Readable(dir[..to]) == Readable(dir[..from]) + Readable(dir[from..to])
  {
    assert dir[..from] + dir[from..to] == dir[..to];
    ReadableAppend(dir[..from], dir[from..to]);
    hide Readable;
  }

  lemma HonestPage(dir: seq<Entry>, k: nat)
    requires OffsetAt(Honest(dir), k) == Covered(dir, k)
    ensures PageAt(Honest(dir), k) == Some(PageOf(dir, Covered(dir, k), PAGE_SIZE))
    ensures OffsetAt(Honest(dir), k + 1) == Covered(dir, k + 1)
    ensures Merged(Honest(dir), k + 1) == Merged(Honest(dir), k) + Readable(dir[Covered(dir, k)..Covered(dir, k + 1)])
  {
    hide Readable, Covered, PageOf;
    PageOfCovered(dir, k);
  }

  lemma {:induction false} HonestPages(dir: seq<Entry>, k: nat)
    ensures OffsetAt(Honest(dir), k) == Covered(dir, k)
    ensures Merged(Honest(dir), k) == Readable(dir[..Covered(dir, k)])
    ensures PageAt(Honest(dir), k) == Some(PageOf(dir, Covered(dir, k), PAGE_SIZE))
  {
    hide *;
    if k == 0 {
      NothingCovered(dir);
    } else {
      HonestPages(dir, k - 1);
      HonestPage(dir, k - 1);
      PageOfCovered(dir, k - 1);
      ReadableSplit(dir, Covered(dir, k - 1), Covered(dir, k));
    }
    HonestPage(dir, k);
  }

  lemma NothingCovered(dir: seq<Entry>)
    ensures OffsetAt(Honest(dir), 0) == Covered(dir, 0) == 0
    ensures Merged(Honest(dir), 0) == Readable(dir[..0]) == []
  {
  }

  lemma HonestContinues(dir: seq<Entry>, k: nat)
    ensures Continues(Honest(dir), k)
            <==> k + 1 < MAX_REQUESTS && (k + 1) * 500 < |dir| && |Readable(dir[..(k + 1) * 500])| < MAX_LISTED
  {
    HonestPages(dir, k);
    HonestPages(dir, k + 1);
    assert PageOf(dir, Covered(dir, k), PAGE_SIZE).nextOffset == Covered(dir, k + 1);
  }

  /** The requests it takes to list n readable entries. */
  function PagesFor(n: nat): nat {
    if n == 0 then 1 else (Min(n, 5000) + 499) / 500
  }

  /** Listing an unchanged directory from the agent: the readable ones of a prefix
      of it, in order and each once, with the true total; the prefix is everything,
      or reaches the display limit, or is as long as the request limit allows. With
      all of them readable, it is exactly what fits the display limit, in exactly as
      many requests as it has pages. */
  method ListFromAgent(dir: seq<Entry>) returns (merged: Page, requests: nat)
    ensures requests <= 12
    ensures var seen := Covered(dir, requests);
            && merged == Page(Readable(dir[..seen]), |dir|, seen, seen < |dir|)
            && (seen == |dir| || |Readable(dir[..seen])| >= 5000 || requests == 12)
    ensures (forall i | 0 <= i < |dir| :: dir[i].readable)
            ==> merged == Page(dir[..Min(|dir|, 5000)], |dir|, Min(|dir|, 5000), |dir| > 5000)
                && requests == PagesFor(|dir|)
  {
    hide Readable, Continues, Honest, Merged, OffsetAt, PageAt, PagesFor;
    var result;
    result, requests := ListDirPages(Honest(dir));
    HonestPages(dir, requests);
    HonestPages(dir, requests - 1);
    HonestContinues(dir, requests - 1);
    var seen := Covered(dir, requests);
    assert PageOf(dir, Covered(dir, requests - 1), PAGE_SIZE).nextOffset == seen;
    ReadableIsShorter(dir[..seen]);
    merged := result.value;
    if forall i | 0 <= i < |dir| :: dir[i].readable {
      AllReadableStop(dir, requests);
    }
  }

  lemma {:induction false} ReadableIsShorter(entries: seq<Entry>)
    ensures |Readable(entries)| <= |entries|
  {
    if entries == [] {
    } else {
      ReadableIsShorter(entries[..|entries| - 1]);
    }
  }

  lemma AllReadableContinues(dir: seq<Entry>, k: nat)
    requires forall i | 0 <= i < |dir| :: dir[i].readable
    ensures Continues(Honest(dir), k) <==> (k + 1) * 500 < |dir| && (k + 1) * 500 < MAX_LISTED
  {
    HonestContinues(dir, k);
    if (k + 1) * 500 < |dir| {
      ReadableAll(dir[..(k + 1) * 500]);
    }
    hide Continues, Readable, Honest;
  }

  /** With every entry readable, the loop stops at the display limit or the end. */
  lemma AllReadableStop(dir: seq<Entry>, requests: nat)
    requires requests > 0 && (forall i | 0 <= i < |dir| :: dir[i].readable)
    requires forall k | 0 <= k < requests - 1 :: Continues(Honest(dir), k)
    requires !Continues(Honest(dir), requests - 1)
    ensures Covered(dir, requests) == Min(|dir|, MAX_LISTED)
    ensures Readable(dir[..Covered(dir, requests)]) == dir[..Covered(dir, requests)]
    ensures requests == PagesFor(|dir|)
  {
    AllReadableContinues(dir, requests - 1);
    if requests > 1 {
      assert Continues(Honest(dir), requests - 2);
      AllReadableContinues(dir, requests - 2);
    }
    CoveredStop(dir, requests);
    var seen := dir[..Covered(dir, requests)];
    assert forall i | 0 <= i < |seen| :: seen[i] == dir[i];
    ReadableAll(seen);
    hide Continues, Readable, Honest, Covered;
  }

  lemma CoveredStop(dir: seq<Entry>, requests: nat)
    requires requests > 0
    requires !(requests * 500 < |dir| && requests * 500 < MAX_LISTED)
    requires requests > 1 ==> (requests - 1) * 500 < |dir| && (requests - 1) * 500 < MAX_LISTED
    ensures Covered(dir, requests) == Min(|dir|, MAX_LISTED) && requests == PagesFor(|dir|)
  {
  }
}
