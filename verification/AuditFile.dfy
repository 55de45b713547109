/** The agent's audit log: lines appended to a file that is rotated once. */
module AuditFile {
  import opened Common

  /** A marshalled event, written with a newline after it. */
  datatype Line = Line(text: Bytes)
  {
    function Length(): nat {
      |text| + 1
    }
  }

  function Size(lines: seq<Line>): nat {
    if lines == [] then 0 else Size(lines[..|lines| - 1]) + lines[|lines| - 1].Length()
  }

  lemma SizeSnoc(lines: seq<Line>, line: Line)
    ensures Size(lines + [line]) == Size(lines) + line.Length()
  {
    assert (lines + [line])[..|lines|] == lines;
  }

  /** The two files, and whether the current one is open. */
  datatype State = State(current: seq<Line>, backup: seq<Line>, open: bool)

  /** How the file operations of a rotation fare. */
  datatype Rotation = Rotation(renamed: bool, reopened: bool)

  function Rotated(s: State, r: Rotation): State {
    var moved := if r.renamed then s.(current := [], backup := s.current) else s.(backup := []);
    moved.(open := r.reopened)
  }

  function Logged(s: State, maxSize: nat, line: Line, r: Rotation): State {
    if !s.open then s
    else
      var t := if Size(s.current) + line.Length() > maxSize then Rotated(s, r) else s;
      if t.open then t.(current := t.current + [line]) else t
  }

  class Logger {
    var current: seq<Line>
    var backup: seq<Line>
    var open: bool
    var size: nat
    const maxSize: nat

    predicate Valid()
      reads this
    {
      size == Size(current)
    }

    function Contents(): State
      reads this
    {
      State(current, backup, open)
    }

    /** Appends to whatever the files already hold. */
    constructor (current: seq<Line>, backup: seq<Line>, maxSize: nat)
      ensures Valid() && Contents() == State(current, backup, true) && this.maxSize == maxSize
    {
      this.current, this.backup, this.maxSize := current, backup, maxSize;
      open, size := true, Size(current);
    }

    method OpenFile(reopened: bool)
      requires !open
      modifies this`open, this`size
      ensures open == reopened
      ensures open ==> size == Size(current)
      ensures !open ==> size == old(size)
    {
      if reopened {
        open := true;
        size := Size(current);
      }
    }

    method Rotate(r: Rotation)
      requires Valid() && open
      modifies this
      ensures Contents() == Rotated(old(Contents()), r)
      ensures open ==> Valid()
    {
      open := false;
      backup := [];
      if r.renamed {
        backup := current;
        current := [];
      }
      OpenFile(r.reopened);
    }

    method Log(line: Line, r: Rotation)
      requires open ==> Valid()
      modifies this
      ensures Contents() == Logged(old(Contents()), maxSize, line, r)
      ensures open ==> Valid()
    {
      if !open {
        return;
      }
      if size + line.Length() > maxSize {
        Rotate(r);
        if !open {
          return;
        }
      }
      SizeSnoc(current, line);
      current := current + [line];
      size := size + line.Length();
    }
  }

  // -------------------------------------------------------------- retained history

  datatype Call = Call(line: Line, rotation: Rotation)

  function Run(s: State, maxSize: nat, calls: seq<Call>): State {
    if calls == [] then s
    else
      var last := calls[|calls| - 1];
      Logged(Run(s, maxSize, calls[..|calls| - 1]), maxSize, last.line, last.rotation)
  }

  function Retained(s: State): seq<Line> {
    s.backup + s.current
  }

  /** The lines of the calls made, in order. */
  function Lines(calls: seq<Call>): seq<Line> {
    if calls == [] then [] else Lines(calls[..|calls| - 1]) + [calls[|calls| - 1].line]
  }

  lemma LinesSnoc(kept: seq<Line>, calls: seq<Call>)
    requires calls != []
    ensures kept + Lines(calls) == (kept + Lines(calls[..|calls| - 1])) + [calls[|calls| - 1].line]
  {
    Assoc(kept, Lines(calls[..|calls| - 1]), [calls[|calls| - 1].line]);
  }

  predicate Suffix(a: seq<Line>, b: seq<Line>) {
    |a| <= |b| && a == b[|b| - |a|..]
  }

  /** The retained lines end the history, and are all of it or more than maxSize bytes. */
  predicate Keeps(s: State, history: seq<Line>, maxSize: nat) {
    && Suffix(Retained(s), history)
    && (Retained(s) == history || Size(Retained(s)) > maxSize)
  }

  lemma SuffixSnoc(a: seq<Line>, b: seq<Line>, line: Line)
    requires Suffix(a, b)
    ensures Suffix(a + [line], b + [line])
  {
    var n := |b| - |a|;
    assert (b + [line])[n..] == b[n..] + [line];
  }

  lemma SuffixTail(p: seq<Line>, q: seq<Line>, b: seq<Line>)
    requires Suffix(p + q, b)
    ensures Suffix(q, b)
  {
    var n := |b| - |p + q|;
    assert b[n..][|p|..] == q;
    assert b[n..][|p|..] == b[|b| - |q|..];
  }

  lemma LoggedEffect(s: State, maxSize: nat, line: Line, r: Rotation)
    requires s.open && r.reopened
    ensures var t := Logged(s, maxSize, line, r);
            && t.open
            && (if Size(s.current) + line.Length() > maxSize then Retained(t) == s.current + [line]
                else Retained(t) == Retained(s) + [line] && t.current == s.current + [line])
            && (Size(s.current) + line.Length() > maxSize ==>
                  if r.renamed then t.current == [line] && t.backup == s.current
                  else t.current == s.current + [line] && t.backup == [])
  {
    assert [] + [line] == [line];
    assert [] + (s.current + [line]) == s.current + [line];
    assert s.backup + (s.current + [line]) == (s.backup + s.current) + [line];
    hide Size;
  }

  lemma LoggedKeeps(s: State, history: seq<Line>, maxSize: nat, line: Line, r: Rotation)
    requires s.open && Keeps(s, history, maxSize) && r.reopened
    ensures Keeps(Logged(s, maxSize, line, r), history + [line], maxSize)
    ensures r.renamed ==> var t := Logged(s, maxSize, line, r); Size(t.current) <= maxSize || t.current == [line]
  {
    LoggedEffect(s, maxSize, line, r);
    SuffixTail(s.backup, s.current, history);
    SuffixSnoc(s.current, history, line);
    SuffixSnoc(Retained(s), history, line);
    SizeSnoc(s.current, line);
    SizeSnoc(Retained(s), line);
    hide Suffix, Size, Logged;
  }

  /** In every run whose reopens succeed: what is retained is a suffix of
      everything ever logged, and it is all of it or more than maxSize bytes; this
      holds even when renames fail. Each call that could rename leaves a current
      file within maxSize, unless it holds that one line only. */
  lemma {:induction false} RetainsARecentSuffix(s: State, maxSize: nat, calls: seq<Call>)
    requires s.open && forall i | 0 <= i < |calls| :: calls[i].rotation.reopened
    ensures Run(s, maxSize, calls).open
    ensures Keeps(Run(s, maxSize, calls), Retained(s) + Lines(calls), maxSize)
    ensures calls != [] && calls[|calls| - 1].rotation.renamed ==>
              var t := Run(s, maxSize, calls);
              Size(t.current) <= maxSize || t.current == [calls[|calls| - 1].line]
  {
    if calls == [] {
      assert Retained(s) + Lines(calls) == Retained(s) && Suffix(Retained(s), Retained(s));
    } else {
      var before, last := calls[..|calls| - 1], calls[|calls| - 1];
      RetainsARecentSuffix(s, maxSize, before);
      LoggedKeeps(Run(s, maxSize, before), Retained(s) + Lines(before), maxSize, last.line, last.rotation);
      LinesSnoc(Retained(s), calls);
      hide Keeps, Logged, Size, Lines;
    }
  }

  /** With renames succeeding too, neither file ever exceeds the larger of maxSize
      and the longest line, once the files they started from do not. */
  lemma {:induction false} FilesAreBounded(s: State, maxSize: nat, longest: nat, calls: seq<Call>)
    requires s.open && forall i | 0 <= i < |calls| ::
               calls[i].rotation.reopened && calls[i].rotation.renamed && calls[i].line.Length() <= longest
    requires Size(s.current) <= Max(maxSize, longest) && Size(s.backup) <= Max(maxSize, longest)
    ensures Run(s, maxSize, calls).open
    ensures Size(Run(s, maxSize, calls).current) <= Max(maxSize, longest)
    ensures Size(Run(s, maxSize, calls).backup) <= Max(maxSize, longest)
  {
    if calls == [] {
    } else {
      var before, last := calls[..|calls| - 1], calls[|calls| - 1];
      FilesAreBounded(s, maxSize, longest, before);
      SizeSnoc(Run(s, maxSize, before).current, last.line);
      SizeSnoc([], last.line);
    }
  }

  /** The exception: after a rotation whose reopen fails, no further line is logged. */
  lemma {:induction false} NothingAfterFailedReopen(s: State, maxSize: nat, line: Line, r: Rotation, calls: seq<Call>)
    requires s.open && Size(s.current) + line.Length() > maxSize && !r.reopened
    ensures var t := Run(Logged(s, maxSize, line, r), maxSize, calls);
            !t.open && Retained(t) == s.current
  {
    if calls == [] {
      assert [] + s.current == s.current && s.current + [] == s.current;
    } else {
      NothingAfterFailedReopen(s, maxSize, line, r, calls[..|calls| - 1]);
    }
    hide Size;
  }
}
