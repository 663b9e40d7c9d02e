/**
 The in-memory output of the encoding benchmark: a buffer that grows by doubling
 and stands for a sparse file of at most 128 MiB. Every allocation may fail.
 */
module Sink {
  import opened Stacks
  import opened Characters

  const MAX: nat := 128 * 1024 * 1024

  // ---------------------------------------------------------------------
  // The file
  // ---------------------------------------------------------------------

  /** What the file holds, where the next write goes, and how much is allocated. */
  datatype State = State(content: seq<byte>, position: nat, capacity: nat)

  const EMPTY := State([], 0, 0)

  /** `memory`: whether the allocator would give more, if it were asked. */
  datatype Call =
    | Write(bytes: seq<byte>, memory: bool)
    | Seek(at: int, memory: bool)
    | Skip(distance: int, memory: bool)

  datatype Outcome = Outcome(state: State, ok: bool)

  function Zeros(n: nat): (r: seq<byte>)
    ensures |r| == n && forall i :: 0 <= i < n ==> r[i] == 0
  {
    seq(n, _ => 0)
  }

  /** The first doubling of `capacity` that reaches `end`. */
  function Doubled(capacity: nat, end: nat): (r: nat)
    requires capacity > 0
    ensures r >= capacity && r >= end && (r == capacity || r < 2 * end)
    decreases end - capacity
  {
    if capacity < end then Doubled(2 * capacity, end) else capacity
  }

  function Grown(st: State, end: nat, memory: bool): Outcome
  {
    if end > MAX then Outcome(st, false)
    else if end <= st.capacity then Outcome(st, true)
    else if memory then Outcome(st.(capacity := Doubled(if st.capacity > 0 then st.capacity else 4096, end)), true)
    else Outcome(st, false)
  }

  function Overlaid(content: seq<byte>, at: nat, bytes: seq<byte>): seq<byte>
    requires at <= |content|
  {
    content[..at] + bytes + if at + |bytes| < |content| then content[at + |bytes|..] else []
  }

  lemma {:induction false} OverlaidAt(content: seq<byte>, at: nat, bytes: seq<byte>, r: seq<byte>)
    requires at <= |content|
    requires |r| == if at + |bytes| > |content| then at + |bytes| else |content|
    requires forall i :: 0 <= i < |r| ==> r[i] == if at <= i < at + |bytes| then bytes[i - at] else content[i]
    ensures r == Overlaid(content, at, bytes)
  {
  }

  function Extended(content: seq<byte>, end: nat): seq<byte>
  {
    if end > |content| then content + Zeros(end - |content|) else content
  }

  function Sought(st: State, at: int, memory: bool): Outcome
  {
    if at < 0 then Outcome(st, false)
    else
      var grown := Grown(st, at, memory);
      if grown.ok then Outcome(State(Extended(st.content, at), at, grown.state.capacity), true) else grown
  }

  function Step(st: State, call: Call): Outcome
    requires Sound(st)
  {
    match call
    case Write(bytes, memory) =>
      var grown := Grown(st, st.position + |bytes|, memory);
      if grown.ok then
        Outcome(State(Overlaid(st.content, st.position, bytes), st.position + |bytes|, grown.state.capacity), true)
      else grown
    case Seek(at, memory) => Sought(st, at, memory)
    case Skip(n, memory) => Sought(st, st.position + n, memory)
  }

  /** 4096 doubled `k` times. */
  function Pages(k: nat): (r: nat)
    ensures r >= 4096
  {
    if k == 0 then 4096 else 2 * Pages(k - 1)
  }

  ghost predicate IsCapacity(n: nat)
  {
    n == 0 || exists k :: 0 <= k <= 15 && n == Pages(k)
  }

  predicate Sound(st: State)
  {
    st.position <= |st.content| <= st.capacity <= MAX
  }

  // ---------------------------------------------------------------------
  // Every call
  // ---------------------------------------------------------------------

  lemma {:induction false} PagesAscend(j: nat, k: nat)
    requires j < k
    ensures Pages(j) < Pages(k)
  {
    if j < k - 1 {
      PagesAscend(j, k - 1);
    }
  }

  lemma {:induction false} LargestCapacity()
    ensures Pages(15) == MAX
  {
    assert Pages(3) == 32768;
    assert Pages(6) == 262144;
    assert Pages(9) == 2097152;
    assert Pages(12) == 16777216;
  }

  /** Doubling a power of two stays on powers of two and within the limit. */
  lemma {:induction false} DoublingStaysWithin(k: nat, end: nat)
    requires k <= 15 && end <= MAX
    ensures IsCapacity(Doubled(Pages(k), end)) && Doubled(Pages(k), end) <= MAX
    decreases 15 - k
  {
    LargestCapacity();
    if k < 15 {
      PagesAscend(k, 15);
      assert Pages(k + 1) == 2 * Pages(k);
      DoublingStaysWithin(k + 1, end);
    }
  }

  lemma {:induction false} GrowthStaysWithin(st: State, end: nat, memory: bool)
    requires IsCapacity(st.capacity) && st.capacity <= MAX
    ensures var grown := Grown(st, end, memory);
            IsCapacity(grown.state.capacity) && st.capacity <= grown.state.capacity <= MAX &&
            (grown.ok ==> end <= grown.state.capacity)
  {
    var k :| 0 <= k <= 15 && (if st.capacity > 0 then st.capacity else Pages(0)) == Pages(k);
    if end <= MAX {
      DoublingStaysWithin(k, end);
    }
  }

  lemma {:induction false} SoughtIsSound(st: State, at: int, memory: bool)
    requires Sound(st) && IsCapacity(st.capacity)
    ensures var out := Sought(st, at, memory);
            Sound(out.state) && IsCapacity(out.state.capacity) && (!out.ok ==> out.state == st)
  {
    if at >= 0 {
      GrowthStaysWithin(st, at, memory);
    }
  }

  /** No call breaks the bounds, and one that fails leaves everything as it was. */
  lemma {:induction false} StepIsSound(st: State, call: Call)
    requires Sound(st) && IsCapacity(st.capacity)
    ensures var out := Step(st, call);
            Sound(out.state) && IsCapacity(out.state.capacity) && (!out.ok ==> out.state == st)
  {
    match call
    case Write(bytes, memory) => GrowthStaysWithin(st, st.position + |bytes|, memory);
    case Seek(at, memory) => SoughtIsSound(st, at, memory);
    case Skip(n, memory) => SoughtIsSound(st, st.position + n, memory);
  }

  // ---------------------------------------------------------------------
  // Every run
  // ---------------------------------------------------------------------

  ghost function Run(calls: seq<Call>): (r: State)
    ensures Sound(r) && IsCapacity(r.capacity)
    decreases |calls|
  {
    if |calls| == 0 then EMPTY
    else
      StepIsSound(Run(Pop(calls)), Top(calls));
      Step(Run(Pop(calls)), Top(calls)).state
  }

  // ---------------------------------------------------------------------
  // The same from the calls alone
  // ---------------------------------------------------------------------

  /** Where the next byte goes, and the furthest place ever reached. */
  datatype Mark = Mark(place: nat, reach: nat)

  function EndOf(place: nat, call: Call): int
  {
    match call
    case Write(bytes, _) => place + |bytes|
    case Seek(at, _) => at
    case Skip(distance, _) => place + distance
  }

  /** How often a page is doubled until it holds `n` bytes, from the `k`th time on. */
  function Doublings(n: nat, k: nat): (r: nat)
    requires n <= MAX && k <= 15
    ensures k <= r <= 15 && n <= Pages(r) && (r > k ==> Pages(r - 1) < n)
    decreases 15 - k
  {
    LargestCapacity();
    if n <= Pages(k) then k else Doublings(n, k + 1)
  }

  /** The smallest buffer that holds a file of `n` bytes. */
  function Buffer(n: nat): (r: nat)
    requires n <= MAX
    ensures n <= r && (r == 0 <==> n == 0) && (r > 4096 ==> r < 2 * n)
  {
    if n == 0 then 0 else Pages(Doublings(n, 0))
  }

  /** A call is carried out unless it ends outside the file, or past the buffer with no memory given. */
  predicate Allowed(m: Mark, call: Call)
    requires m.reach <= MAX
  {
    0 <= EndOf(m.place, call) <= MAX && (EndOf(m.place, call) <= Buffer(m.reach) || call.memory)
  }

  function MarkAfter(calls: seq<Call>): (m: Mark)
    ensures m.place <= m.reach <= MAX
    decreases |calls|
  {
    if |calls| == 0 then Mark(0, 0)
    else
      Moved(MarkAfter(Pop(calls)), Top(calls))
  }

  /** The byte that the last write carried out over place `i` put there, 0 if there was none. */
  function LastWritten(calls: seq<Call>, i: nat): byte
    decreases |calls|
  {
    if |calls| == 0 then 0
    else
      var m := MarkAfter(Pop(calls));
      if Top(calls).Write? && Allowed(m, Top(calls)) && m.place <= i < m.place + |Top(calls).bytes| then Top(calls).bytes[i - m.place]
      else LastWritten(Pop(calls), i)
  }

  lemma {:induction false} FewerDoublings(n: nat, k: nat)
    requires n <= MAX && k <= 15 && (k == 0 || Pages(k - 1) < n)
    ensures Doublings(n, 0) == Doublings(n, k)
    decreases k
  {
    if k > 0 {
      if k > 1 {
        PagesAscend(k - 2, k - 1);
      }
      FewerDoublings(n, k - 1);
    }
  }

  lemma {:induction false} DoubledIs(k: nat, end: nat)
    requires k <= 15 && end <= MAX
    ensures Doubled(Pages(k), end) == Pages(Doublings(end, k))
    decreases 15 - k
  {
    LargestCapacity();
    if Pages(k) < end {
      assert Pages(k + 1) == 2 * Pages(k);
      DoubledIs(k + 1, end);
    }
  }

  lemma {:induction false} GrowthIs(st: State, n: nat, end: nat, memory: bool)
    requires n <= MAX && st.capacity == Buffer(n) && end <= MAX && (end <= st.capacity || memory)
    ensures var grown := Grown(st, end, memory); grown.ok && grown.state.capacity == Buffer(if end > n then end else n)
  {
    var k := if n == 0 then 0 else Doublings(n, 0);
    if end > st.capacity {
      DoubledIs(k, end);
      if k > 0 {
        PagesAscend(k - 1, k);
      }
      FewerDoublings(end, k);
    } else if end > n {
      FewerDoublings(end, k);
    }
  }

  /** The state is where the calls so far have led. */
  predicate IsAt(st: State, m: Mark)
  {
    Sound(st) && m.reach <= MAX && st.position == m.place && |st.content| == m.reach && st.capacity == Buffer(m.reach)
  }

  function Moved(m: Mark, call: Call): Mark
    requires m.reach <= MAX
  {
    var end := EndOf(m.place, call);
    if !Allowed(m, call) then m else Mark(end, if end > m.reach then end else m.reach)
  }

  lemma {:induction false} StepMoves(st: State, m: Mark, call: Call)
    requires IsAt(st, m) && m.place <= m.reach && IsCapacity(st.capacity)
    ensures var out := Step(st, call); IsAt(out.state, Moved(m, call)) && (out.ok <==> Allowed(m, call))
  {
    var end := EndOf(m.place, call);
    StepIsSound(st, call);
    SizeGrows(st, call);
    if Allowed(m, call) {
      GrowthIs(st, m.reach, end, call.memory);
    }
  }

  /**
   Place, size and buffer after any run, and which calls are carried out, follow from the
   calls alone: a call fails exactly when it ends outside the file, or past the
   smallest buffer for what was reached with no memory given.
   */
  lemma {:induction false} RunIsMarked(calls: seq<Call>)
    ensures var m, st := MarkAfter(calls), Run(calls);
            st.position == m.place && |st.content| == m.reach && st.capacity == Buffer(m.reach)
    ensures |calls| > 0 ==> (Step(Run(Pop(calls)), Top(calls)).ok <==> Allowed(MarkAfter(Pop(calls)), Top(calls)))
    decreases |calls|
  {
    if |calls| > 0 {
      RunIsMarked(Pop(calls));
      StepMoves(Run(Pop(calls)), MarkAfter(Pop(calls)), Top(calls));
    }
  }

  lemma {:induction false} StepAt(st: State, call: Call, i: nat)
    requires Sound(st)
    ensures var out := Step(st, call);
            i < |out.state.content| ==>
              out.state.content[i] == (if call.Write? && out.ok && st.position <= i < st.position + |call.bytes|
                                       then call.bytes[i - st.position]
                                       else if i < |st.content| then st.content[i] else 0)
  {
    match call
    case Write(_, _) =>
    case Seek(_, _) =>
    case Skip(_, _) =>
  }

  /** After any run a place of the file holds what was last written there, and 0 in the gaps. */
  lemma {:induction false} FileIsWhatWasWritten(calls: seq<Call>, i: nat)
    ensures |Run(calls).content| == MarkAfter(calls).reach
    ensures if i < |Run(calls).content| then Run(calls).content[i] == LastWritten(calls, i) else LastWritten(calls, i) == 0
    decreases |calls|
  {
    if |calls| > 0 {
      var before, call := Run(Pop(calls)), Top(calls);
      FileIsWhatWasWritten(Pop(calls), i);
      RunIsMarked(Pop(calls));
      RunIsMarked(calls);
      StepAt(before, call, i);
      StepIsSound(before, call);
      SizeGrows(before, call);
    } else {
      RunIsMarked(calls);
    }
  }

  lemma {:induction false} SizeGrows(st: State, call: Call)
    requires Sound(st)
    ensures var out := Step(st, call);
            |out.state.content| == if out.state.position > |st.content| then out.state.position else |st.content|
  {
    match call
    case Write(_, _) =>
    case Seek(_, _) =>
    case Skip(_, _) =>
  }

  /** Its size is the furthest place that a call carried out has moved to. */
  lemma {:induction false} SizeIsFurthest(calls: seq<Call>)
    ensures forall n :: 0 <= n <= |calls| ==> MarkAfter(calls[..n]).place <= |Run(calls).content|
    ensures exists n :: 0 <= n <= |calls| && MarkAfter(calls[..n]).place == |Run(calls).content|
  {
    RunIsMarked(calls);
    ReachIsFurthest(calls);
  }

  lemma {:induction false} ReachIsFurthest(calls: seq<Call>)
    ensures forall n :: 0 <= n <= |calls| ==> MarkAfter(calls[..n]).place <= MarkAfter(calls).reach
    ensures exists n :: 0 <= n <= |calls| && MarkAfter(calls[..n]).place == MarkAfter(calls).reach
    decreases |calls|
  {
    assert calls[..|calls|] == calls;
    if |calls| > 0 {
      var pre := Pop(calls);
      ReachIsFurthest(pre);
      assert forall n :: 0 <= n <= |pre| ==> calls[..n] == pre[..n];
      var n :| 0 <= n <= |pre| && MarkAfter(pre[..n]).place == MarkAfter(pre).reach;
      assert MarkAfter(calls[..n]).place == MarkAfter(pre).reach;
    }
  }

  // ---------------------------------------------------------------------
  // What skip reports
  // ---------------------------------------------------------------------

  function SkipResult(st: State, n: int, memory: bool): int
  {
    if Sought(st, st.position + n, memory).ok then n else -1
  }

  /** A caller cannot tell a failed skip from a successful one of -1. */
  lemma {:induction false} SkipBackOneLooksFailed(st: State, n: int, memory: bool)
    requires Sound(st)
    ensures SkipResult(st, n, memory) == -1 <==> !Step(st, Skip(n, memory)).ok || n == -1
    ensures Step(st, Skip(n, memory)).ok ==> SkipResult(st, n, memory) == n
    ensures st.position > 0 ==> Step(st, Skip(-1, memory)) == Outcome(st.(position := st.position - 1), true)
  {
  }

  // ---------------------------------------------------------------------
  // The code
  // ---------------------------------------------------------------------

  class MemorySink {
    var data: array?<byte>
    var size: nat
    var position: nat
    var capacity: nat

    /** The buffer is as long as it says, and every byte past the end of the file is zero. */
    ghost predicate Valid()
      reads this, data
    {
      (if data == null then capacity == 0 else data.Length == capacity > 0) &&
      position <= size <= capacity <= MAX && IsCapacity(capacity) &&
      (data != null ==> forall i :: size <= i < capacity ==> data[i] == 0)
    }

    ghost function Content(): (r: seq<byte>)
      requires Valid()
      reads this, data
      ensures |r| == size
    {
      if data == null then [] else data[..size]
    }

    ghost function View(): State
      requires Valid()
      reads this, data
    {
      State(Content(), position, capacity)
    }

    constructor ()
      ensures Valid() && View() == EMPTY
    {
      data, size, position, capacity := null, 0, 0, 0;
    }

    method Grow(end: nat, memory: bool) returns (ok: bool)
      requires Valid()
      modifies this`data, this`capacity
      ensures Valid() && Outcome(View(), ok) == Grown(old(View()), end, memory)
      ensures data == old(data) || fresh(data)
    {
      GrowthStaysWithin(View(), end, memory);
      if end > MAX {
        return false;
      }
      if end <= capacity {
        return true;
      }
      var wanted := if capacity > 0 then capacity else 4096;
      while wanted < end
        invariant wanted > 0
        invariant Doubled(wanted, end) == Doubled(if capacity > 0 then capacity else 4096, end)
        decreases end - wanted
      {
        wanted := wanted * 2;
      }
      if !memory {
        return false;
      }
      var grown := new byte[wanted];
      if data != null {
        forall i | 0 <= i < capacity {
          grown[i] := data[i];
        }
      }
      forall i | capacity <= i < wanted {
        grown[i] := 0;
      }
      data, capacity := grown, wanted;
      assert Content() == old(Content());
      ok := true;
    }

    method WriteBytes(bytes: seq<byte>, memory: bool) returns (written: int)
      requires Valid()
      modifies this, data
      ensures Valid() && Outcome(View(), written != -1) == Step(old(View()), Write(bytes, memory))
      ensures written == -1 || written == |bytes|
      ensures data == old(data) || fresh(data)
    {
      if |bytes| > MAX - position {
        return -1;
      }
      var ok := Grow(position + |bytes|, memory);
      if !ok {
        return -1;
      }
      Store(bytes);
      written := |bytes|;
    }

    method Store(bytes: seq<byte>)
      requires Valid() && position + |bytes| <= capacity
      modifies this`position, this`size, data
      ensures Valid()
      ensures View() == State(Overlaid(old(Content()), old(position), bytes), old(position) + |bytes|, capacity)
    {
      if data != null {
        forall i | 0 <= i < |bytes| {
          data[position + i] := bytes[i];
        }
      }
      position := position + |bytes|;
      if position > size {
        size := position;
      }
      OverlaidAt(old(Content()), old(position), bytes, Content());
    }

    method SeekTo(at: int, memory: bool) returns (ok: bool)
      requires Valid()
      modifies this
      ensures Valid() && Outcome(View(), ok) == Sought(old(View()), at, memory)
      ensures data == old(data) || fresh(data)
    {
      if at < 0 || at > MAX {
        return false;
      }
      ok := Grow(at, memory);
      if !ok {
        return false;
      }
      position := at;
      if position > size {
        size := position;
      }
      assert Content() == Extended(old(Content()), at);
    }

    method SkipBy(n: int, memory: bool) returns (skipped: int)
      requires Valid()
      modifies this
      ensures Valid() && View() == Step(old(View()), Skip(n, memory)).state
      ensures skipped == SkipResult(old(View()), n, memory)
      ensures data == old(data) || fresh(data)
    {
      if n < -(position as int) || n > MAX - position {
        return -1;
      }
      var ok := SeekTo(position + n, memory);
      skipped := if ok then n else -1;
    }

    /** A whole run. */
    method Perform(calls: seq<Call>)
      requires Valid() && View() == EMPTY
      modifies this, data
      ensures Valid() && View() == Run(calls)
    {
      ghost var first := data;
      var i := 0;
      while i < |calls|
        invariant 0 <= i <= |calls| && Valid() && View() == Run(calls[..i])
        invariant data == first || fresh(data)
      {
        assert Pop(calls[..i + 1]) == calls[..i] && Top(calls[..i + 1]) == calls[i];
        match calls[i] {
          case Write(bytes, memory) =>
            var _ := WriteBytes(bytes, memory);
          case Seek(at, memory) =>
            var _ := SeekTo(at, memory);
          case Skip(n, memory) =>
            var _ := SkipBy(n, memory);
        }
        i := i + 1;
      }
      assert calls[..i] == calls;
    }
  }
}
