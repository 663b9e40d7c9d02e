/**
 The beautifiers that ASBeautifier clones at `#if`, so that every branch of a
 preprocessor conditional is indented from the state before the conditional.

 A beautifier is an abstract state `S`; `step` beautifies one code line `L`
 into an output line `O`.
 */
module PreprocessorStacks {
  import opened Stacks

  datatype Line<L> = Code(text: L) | IfLine | ElifLine | ElseLine | EndifLine

  /** The values of the stacks; the code keeps pointers to clones. */
  datatype Machine<S> = Machine(main: S, waiting: seq<S>, active: seq<S>, waitingLengths: seq<nat>, activeLengths: seq<nat>)

  /** The beautifier that gets the next code line. */
  function Current<S>(m: Machine<S>): S
  {
    if |m.active| == 0 then m.main else Top(m.active)
  }

  function WithCurrent<S>(m: Machine<S>, s: S): Machine<S>
  {
    if |m.active| == 0 then m.(main := s) else m.(active := Pop(m.active) + [s])
  }

  function Endif<S>(m: Machine<S>): Machine<S>
  {
    var m1 := if |m.waitingLengths| == 0 then m
              else m.(waiting := Truncated(m.waiting, Top(m.waitingLengths)), waitingLengths := Pop(m.waitingLengths));
    if |m1.activeLengths| == 0 then m1
    else m1.(active := Truncated(m1.active, Top(m1.activeLengths)), activeLengths := Pop(m1.activeLengths))
  }

  function Step<S, L, O>(step: (S, L) -> (S, O), m: Machine<S>, line: Line<L>): (Machine<S>, seq<O>)
  {
    match line
    case Code(text) =>
      var (s, o) := step(Current(m), text);
      (WithCurrent(m, s), [o])
    case IfLine =>
      (m.(waiting := m.waiting + [Current(m)],
          waitingLengths := m.waitingLengths + [|m.waiting|],
          activeLengths := m.activeLengths + [|m.active|]), [])
    case ElifLine =>
      (if |m.waiting| == 0 then m else m.(active := m.active + [Top(m.waiting)]), [])
    case ElseLine =>
      (if |m.waiting| == 0 then m else m.(active := m.active + [Top(m.waiting)], waiting := Pop(m.waiting)), [])
    case EndifLine => (Endif(m), [])
  }

  function Run<S, L, O>(step: (S, L) -> (S, O), m: Machine<S>, lines: seq<Line<L>>): (Machine<S>, seq<O>)
    decreases |lines|
  {
    if |lines| == 0 then (m, [])
    else
      var (m1, o1) := Step(step, m, lines[0]);
      var (m2, o2) := Run(step, m1, lines[1..]);
      (m2, o1 + o2)
  }

  /** Running a concatenation. */
  lemma {:induction false} Chain<S, L, O>(step: (S, L) -> (S, O), m: Machine<S>,
                                          a: seq<Line<L>>, m1: Machine<S>, o1: seq<O>,
                                          b: seq<Line<L>>, m2: Machine<S>, o2: seq<O>)
    requires Run(step, m, a) == (m1, o1) && Run(step, m1, b) == (m2, o2)
    ensures Run(step, m, a + b) == (m2, o1 + o2)
    decreases |a|
  {
    if |a| == 0 {
      assert a + b == b && o1 + o2 == o2;
    } else {
      assert (a + b)[1..] == a[1..] + b;
      var (k, o) := Step(step, m, a[0]);
      var rest := Run(step, k, a[1..]).1;
      Chain(step, k, a[1..], m1, rest, b, m2, o2);
      assert o + (rest + o2) == (o + rest) + o2;
    }
  }

  lemma {:induction false} RunOne<S, L, O>(step: (S, L) -> (S, O), m: Machine<S>, line: Line<L>)
    ensures Run(step, m, [line]) == Step(step, m, line)
  {
    assert [line][1..] == [];
    assert Step(step, m, line).1 + [] == Step(step, m, line).1;
  }

  // ---------------------------------------------------------------------
  // Nested conditionals and their meaning
  // ---------------------------------------------------------------------

  datatype Item<L> =
    | Text(text: L)
    | Conditional(first: seq<Item<L>>, elifs: seq<Branch<L>>, els: Option<Branch<L>>)

  datatype Branch<L> = Branch(items: seq<Item<L>>)

  function Lines<L>(item: Item<L>): seq<Line<L>>
    decreases item, 1
  {
    match item
    case Text(text) => [Code(text)]
    case Conditional(first, elifs, els) =>
      [IfLine] + (AllLines(first) + (ElifLines(elifs) + (ElseLines(els) + [EndifLine])))
  }

  function AllLines<L>(items: seq<Item<L>>): seq<Line<L>>
    decreases items, 2
  {
    if |items| == 0 then [] else Lines(items[0]) + AllLines(items[1..])
  }

  function ElifLines<L>(elifs: seq<Branch<L>>): seq<Line<L>>
    decreases elifs, 0
  {
    if |elifs| == 0 then [] else [ElifLine] + AllLines(elifs[0].items) + ElifLines(elifs[1..])
  }

  function ElseLines<L>(els: Option<Branch<L>>): seq<Line<L>>
    decreases els, 0
  {
    if els.None? then [] else [ElseLine] + AllLines(els.value.items)
  }

  /**
   The meaning: every branch starts from the state before the conditional, and
   the state after it is the one the first branch leaves.
   */
  function Meaning<S, L, O>(step: (S, L) -> (S, O), s: S, item: Item<L>): (S, seq<O>)
    decreases item, 1
  {
    match item
    case Text(text) => (step(s, text).0, [step(s, text).1])
    case Conditional(first, elifs, els) =>
      var (s1, o1) := MeaningAll(step, s, first);
      (s1, o1 + (ElifOutputs(step, s, elifs) + ElseOutputs(step, s, els)))
  }

  function MeaningAll<S, L, O>(step: (S, L) -> (S, O), s: S, items: seq<Item<L>>): (S, seq<O>)
    decreases items, 2
  {
    if |items| == 0 then (s, [])
    else
      var (s1, o1) := Meaning(step, s, items[0]);
      var (s2, o2) := MeaningAll(step, s1, items[1..]);
      (s2, o1 + o2)
  }

  function ElifOutputs<S, L, O>(step: (S, L) -> (S, O), s: S, elifs: seq<Branch<L>>): seq<O>
    decreases elifs, 0
  {
    if |elifs| == 0 then [] else MeaningAll(step, s, elifs[0].items).1 + ElifOutputs(step, s, elifs[1..])
  }

  function ElseOutputs<S, L, O>(step: (S, L) -> (S, O), s: S, els: Option<Branch<L>>): seq<O>
    decreases els, 0
  {
    if els.None? then [] else MeaningAll(step, s, els.value.items).1
  }

  // ---------------------------------------------------------------------
  // The stack machine computes the meaning
  // ---------------------------------------------------------------------

  lemma {:induction false} RunsItem<S, L, O>(step: (S, L) -> (S, O), m: Machine<S>, item: Item<L>)
    ensures var (s, o) := Meaning(step, Current(m), item);
            Run(step, m, Lines(item)) == (WithCurrent(m, s), o)
    decreases item, 1
  {
    match item
    case Text(text) => RunOne(step, m, Code(text));
    case Conditional(first, elifs, els) => RunsConditional(step, m, item);
  }

  /** Everything between `#if` and `#endif`, from any state of the stacks. */
  lemma {:induction false} RunsConditional<S, L, O>(step: (S, L) -> (S, O), m: Machine<S>, item: Item<L>)
    requires item.Conditional?
    ensures var (s, o) := Meaning(step, Current(m), item);
            Run(step, m, Lines(item)) == (WithCurrent(m, s), o)
    decreases item, 0
  {
    var s0 := Current(m);
    var (s1, o1) := MeaningAll(step, s0, item.first);
    var m1 := Step(step, m, IfLine).0;
    var m2 := WithCurrent(m1, s1);
    RunOne(step, m, IfLine);
    RunsAll(step, m1, item.first);
    assert Top(m2.waiting) == s0;
    var m3 := RunsElifs(step, m2, item.elifs);
    var m4 := RunsElse(step, m3, item.els);
    var m5 := WithCurrent(m, s1);
    EndifRestores(m, s1, m4);
    RunOne(step, m4, EndifLine);
    var o3, o4 := ElifOutputs(step, s0, item.elifs), ElseOutputs(step, s0, item.els);
    assert o4 + [] == o4 && [] + (o1 + (o3 + o4)) == o1 + (o3 + o4);
    var l4 := ElseLines(item.els) + [EndifLine];
    Chain(step, m3, ElseLines(item.els), m4, o4, [EndifLine], m5, []);
    Chain(step, m2, ElifLines(item.elifs), m3, o3, l4, m5, o4);
    Chain(step, m1, AllLines(item.first), m2, o1, ElifLines(item.elifs) + l4, m5, o3 + o4);
    Chain(step, m, [IfLine], m1, [], AllLines(item.first) + (ElifLines(item.elifs) + l4), m5, o1 + (o3 + o4));
  }

  lemma {:induction false} EndifRestores<S>(m: Machine<S>, s: S, m4: Machine<S>)
    requires var m2 := WithCurrent(m, s);
             m4.main == m2.main && m2.active <= m4.active &&
             (m4.waiting == m.waiting || (|m4.waiting| == |m.waiting| + 1 && m.waiting <= m4.waiting)) &&
             m4.waitingLengths == m.waitingLengths + [|m.waiting|] &&
             m4.activeLengths == m.activeLengths + [|m.active|]
    ensures Endif(m4) == WithCurrent(m, s)
  {
    assert Pop(m.waitingLengths + [|m.waiting|]) == m.waitingLengths;
    assert Pop(m.activeLengths + [|m.active|]) == m.activeLengths;
  }

  lemma {:induction false} RunsAll<S, L, O>(step: (S, L) -> (S, O), m: Machine<S>, items: seq<Item<L>>)
    ensures var (s, o) := MeaningAll(step, Current(m), items);
            Run(step, m, AllLines(items)) == (WithCurrent(m, s), o)
    decreases items, 2
  {
    if |items| == 0 {
      assert |m.active| > 0 ==> Pop(m.active) + [Top(m.active)] == m.active;
    } else {
      var (s1, o1) := Meaning(step, Current(m), items[0]);
      RunsItem(step, m, items[0]);
      RunsAll(step, WithCurrent(m, s1), items[1..]);
      var m1 := WithCurrent(m, s1);
      var (s2, o2) := MeaningAll(step, s1, items[1..]);
      Chain(step, m, Lines(items[0]), m1, o1, AllLines(items[1..]), WithCurrent(m1, s2), o2);
    }
  }

  /** Each `#elif` branch adds one finished clone to the active stack and changes nothing else. */
  lemma {:induction false} RunsElifs<S, L, O>(step: (S, L) -> (S, O), m: Machine<S>, elifs: seq<Branch<L>>) returns (m': Machine<S>)
    requires |m.waiting| > 0
    ensures Run(step, m, ElifLines(elifs)) == (m', ElifOutputs(step, Top(m.waiting), elifs))
    ensures m' == m.(active := m'.active) && m.active <= m'.active
    decreases elifs, 0
  {
    if |elifs| == 0 {
      m' := m;
    } else {
      var m1 := RunsBranch(step, m, ElifLine, elifs[0]);
      m' := RunsElifs(step, m1, elifs[1..]);
      var s := Top(m.waiting);
      Chain(step, m, [ElifLine] + AllLines(elifs[0].items), m1, MeaningAll(step, s, elifs[0].items).1,
            ElifLines(elifs[1..]), m', ElifOutputs(step, s, elifs[1..]));
    }
  }

  lemma {:induction false} RunsElse<S, L, O>(step: (S, L) -> (S, O), m: Machine<S>, els: Option<Branch<L>>) returns (m': Machine<S>)
    requires |m.waiting| > 0
    ensures Run(step, m, ElseLines(els)) == (m', ElseOutputs(step, Top(m.waiting), els))
    ensures m.active <= m'.active && m' == m.(active := m'.active, waiting := if els.None? then m.waiting else Pop(m.waiting))
    decreases els, 0
  {
    if els.None? {
      m' := m;
    } else {
      m' := RunsBranch(step, m, ElseLine, els.value);
    }
  }

  lemma {:induction false} RunsBranch<S, L, O>(step: (S, L) -> (S, O), m: Machine<S>, opener: Line<L>, branch: Branch<L>)
    returns (m': Machine<S>)
    requires |m.waiting| > 0 && (opener == ElifLine || opener == ElseLine)
    ensures Run(step, m, [opener] + AllLines(branch.items)) == (m', MeaningAll(step, Top(m.waiting), branch.items).1)
    ensures m.active <= m'.active
    ensures m' == m.(active := m'.active, waiting := if opener == ElseLine then Pop(m.waiting) else m.waiting)
    decreases branch, 3
  {
    var m1 := Step(step, m, opener).0;
    RunOne(step, m, opener);
    RunsAll(step, m1, branch.items);
    var (s, o) := MeaningAll(step, Top(m.waiting), branch.items);
    m' := WithCurrent(m1, s);
    Chain(step, m, [opener], m1, [], AllLines(branch.items), m', o);
    assert [] + o == o;
    assert m1.active == m.active + [Top(m.waiting)];
    assert Pop(m1.active) == m.active;
  }

  // ---------------------------------------------------------------------
  // The stacks of pointers
  // ---------------------------------------------------------------------

  /** A cloned beautifier. */
  class Clone<S> {
    var state: S

    constructor (s: S)
      ensures state == s
    {
      state := s;
    }
  }

  function States<S>(clones: seq<Clone<S>>): (r: seq<S>)
    reads clones
    ensures |r| == |clones|
  {
    seq(|clones|, i requires 0 <= i < |clones| reads clones => clones[i].state)
  }

  ghost predicate Distinct<T>(s: seq<T>)
  {
    forall i, j :: 0 <= i < j < |s| ==> s[i] != s[j]
  }

  class Conditionals<S, L, O> {
    const step: (S, L) -> (S, O)
    var main: S
    var waitingBeautifierStack: seq<Clone<S>>
    var activeBeautifierStack: seq<Clone<S>>
    var waitingBeautifierStackLengthStack: seq<nat>
    var activeBeautifierStackLengthStack: seq<nat>

    /** No clone is reached twice. */
    ghost predicate Valid()
      reads this
    {
      Distinct(waitingBeautifierStack + activeBeautifierStack)
    }

    ghost function View(): Machine<S>
      reads this, waitingBeautifierStack, activeBeautifierStack
    {
      Machine(main, States(waitingBeautifierStack), States(activeBeautifierStack),
              waitingBeautifierStackLengthStack, activeBeautifierStackLengthStack)
    }

    ghost function Clones(): set<object>
      reads this
    {
      set c | c in waitingBeautifierStack + activeBeautifierStack
    }

    constructor (step: (S, L) -> (S, O), s: S)
      ensures Valid() && this.step == step && View() == Machine(s, [], [], [], [])
    {
      this.step := step;
      main := s;
      waitingBeautifierStack, activeBeautifierStack := [], [];
      waitingBeautifierStackLengthStack, activeBeautifierStackLengthStack := [], [];
    }

    method BeautifyText(text: L) returns (o: O)
      requires Valid()
      modifies this`main, activeBeautifierStack
      ensures Valid() && unchanged(this`waitingBeautifierStack) && unchanged(this`activeBeautifierStack)
      ensures (View(), [o]) == Step(step, old(View()), Code(text))
    {
      if |activeBeautifierStack| == 0 {
        var (s, out) := step(main, text);
        main, o := s, out;
      } else {
        ghost var all := waitingBeautifierStack + activeBeautifierStack;
        var b := Top(activeBeautifierStack);
        assert b == all[|all| - 1];
        assert forall i :: 0 <= i < |waitingBeautifierStack| ==> waitingBeautifierStack[i] == all[i] != b;
        assert forall i :: 0 <= i < |activeBeautifierStack| - 1 ==>
          activeBeautifierStack[i] == all[|waitingBeautifierStack| + i] != b;
        var (s, out) := step(b.state, text);
        b.state, o := s, out;
        assert States(activeBeautifierStack) == Pop(old(States(activeBeautifierStack))) + [s];
      }
    }

    method ProcessIf()
      requires Valid()
      modifies this
      ensures Valid() && fresh(Clones() - old(Clones()))
      ensures View() == Step(step, old(View()), IfLine).0
    {
      waitingBeautifierStackLengthStack := waitingBeautifierStackLengthStack + [|waitingBeautifierStack|];
      activeBeautifierStackLengthStack := activeBeautifierStackLengthStack + [|activeBeautifierStack|];
      var copy: Clone<S>;
      if Top(activeBeautifierStackLengthStack) == 0 {
        copy := new Clone(main);
      } else {
        copy := new Clone(Top(activeBeautifierStack).state);
      }
      InsertedStaysDistinct(waitingBeautifierStack, copy, activeBeautifierStack);
      waitingBeautifierStack := waitingBeautifierStack + [copy];
      assert View().waiting == old(View().waiting) + [copy.state];
    }

    /** `#else` moves the waiting clone; `#elif` copies it. */
    method ProcessAlternative(isElse: bool)
      requires Valid()
      modifies this
      ensures Valid() && fresh(Clones() - old(Clones()))
      ensures View() == Step(step, old(View()), if isElse then ElseLine else ElifLine).0
    {
      if |waitingBeautifierStack| > 0 {
        if isElse {
          ghost var all := waitingBeautifierStack + activeBeautifierStack;
          ghost var n := |waitingBeautifierStack|;
          activeBeautifierStack := activeBeautifierStack + [Top(waitingBeautifierStack)];
          waitingBeautifierStack := Pop(waitingBeautifierStack);
          MovedStaysDistinct(all, n);
          assert waitingBeautifierStack + activeBeautifierStack == all[..n - 1] + all[n..] + [all[n - 1]];
        } else {
          var copy := new Clone(Top(waitingBeautifierStack).state);
          activeBeautifierStack := activeBeautifierStack + [copy];
        }
        assert View().active == old(View().active) + [Top(old(View().waiting))];
        assert isElse ==> View().waiting == Pop(old(View().waiting));
      }
    }

    method ProcessEndif()
      requires Valid()
      modifies this
      ensures Valid() && Clones() <= old(Clones())
      ensures View() == Step(step, old(View()), EndifLine).0
    {
      if |waitingBeautifierStackLengthStack| > 0 {
        var stackLength := Top(waitingBeautifierStackLengthStack);
        waitingBeautifierStackLengthStack := Pop(waitingBeautifierStackLengthStack);
        while |waitingBeautifierStack| > stackLength
          invariant unchanged(this`main) && unchanged(this`activeBeautifierStack)
          invariant unchanged(this`activeBeautifierStackLengthStack)
          invariant waitingBeautifierStackLengthStack == Pop(old(waitingBeautifierStackLengthStack))
          invariant waitingBeautifierStack <= old(waitingBeautifierStack)
          invariant Truncated(waitingBeautifierStack, stackLength) == Truncated(old(waitingBeautifierStack), stackLength)
        {
          waitingBeautifierStack := Pop(waitingBeautifierStack);
        }
      }
      assert View().waiting == Endif(old(View())).waiting;
      ghost var kept := waitingBeautifierStack;
      if |activeBeautifierStackLengthStack| > 0 {
        var stackLength := Top(activeBeautifierStackLengthStack);
        activeBeautifierStackLengthStack := Pop(activeBeautifierStackLengthStack);
        while |activeBeautifierStack| > stackLength
          invariant unchanged(this`main) && waitingBeautifierStack == kept
          invariant waitingBeautifierStackLengthStack == Endif(old(View())).waitingLengths
          invariant activeBeautifierStackLengthStack == Pop(old(activeBeautifierStackLengthStack))
          invariant activeBeautifierStack <= old(activeBeautifierStack)
          invariant Truncated(activeBeautifierStack, stackLength) == Truncated(old(activeBeautifierStack), stackLength)
        {
          activeBeautifierStack := Pop(activeBeautifierStack);
        }
      }
      assert View().active == Endif(old(View())).active;
      PrefixesStayDistinct(old(waitingBeautifierStack), old(activeBeautifierStack), waitingBeautifierStack, activeBeautifierStack);
    }

    /** One source line: a directive moves the clones, any other line goes to the current beautifier. */
    method Beautify(line: Line<L>) returns (output: seq<O>)
      requires Valid()
      modifies this, Clones()
      ensures Valid() && fresh(Clones() - old(Clones()))
      ensures (View(), output) == Step(step, old(View()), line)
    {
      output := [];
      match line {
        case Code(text) =>
          var o := BeautifyText(text);
          output := [o];
        case IfLine => ProcessIf();
        case ElifLine => ProcessAlternative(false);
        case ElseLine => ProcessAlternative(true);
        case EndifLine => ProcessEndif();
      }
    }
  }

  lemma {:induction false} InsertedStaysDistinct<T>(a: seq<T>, x: T, b: seq<T>)
    requires Distinct(a + b) && x !in a && x !in b
    ensures Distinct(a + [x] + b)
  {
    var s := a + [x] + b;
    assert forall i :: 0 <= i < |a| ==> s[i] == (a + b)[i];
    assert forall i :: |a| < i < |s| ==> s[i] == (a + b)[i - 1] == b[i - 1 - |a|];
  }

  lemma {:induction false} MovedStaysDistinct<T>(all: seq<T>, n: nat)
    requires Distinct(all) && 0 < n <= |all|
    ensures Distinct(all[..n - 1] + all[n..] + [all[n - 1]])
  {
  }

  lemma {:induction false} PrefixesStayDistinct<T>(a: seq<T>, b: seq<T>, a': seq<T>, b': seq<T>)
    requires Distinct(a + b) && a' <= a && b' <= b
    ensures Distinct(a' + b')
    ensures (set x | x in a' + b') <= (set x | x in a + b)
  {
    forall i, j | 0 <= i < j < |a' + b'| ensures (a' + b')[i] != (a' + b')[j] {
      var p := if i < |a'| then i else i - |a'| + |a|;
      var q := if j < |a'| then j else j - |a'| + |a|;
      assert (a' + b')[i] == (a + b)[p] && (a' + b')[j] == (a + b)[q];
    }
  }
}
