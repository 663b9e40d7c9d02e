/**
 The switch tracking of ASEnhancer: how far the lines of a braced `case` block
 are unindented.

 A token stands for a brace, a `switch` keyword, a `case` or `default` label up to
 its colon, other program text, a comment, or the start of a non-empty line.
 */
module SwitchTracker {
  import opened Stacks

  /** What follows the colon of a label on its line. */
  datatype LabelEnd = Brace(oneLineBlock: bool) | Nothing

  datatype Token =
    | LineStart(skipped: bool)   // `skipped`: case-indent is on, or the line is an unindented preprocessor line
    | Switch
    | Open
    | Close(first: bool)         // `first`: the brace is the first text of its line
    | Label(end: LabelEnd)
    | Text
    | LineComment(first: bool)   // `first`: the comment is the first text of its line
    | BlockComment               // a comment in slash and star, or the part of it on this line

  datatype SwitchVariables = SwitchVariables(switchBraceCount: int, unindentDepth: int, unindentCase: bool)

  /** `unindented` is what a closing brace has already taken from the line. */
  datatype State = State(braceCount: int, switchDepth: int, switchStack: seq<SwitchVariables>, sw: SwitchVariables,
                         lookingForCaseBrace: bool, unindentNextLine: bool, skipping: bool,
                         shouldUnindentLine: bool, shouldUnindentComment: bool, unindented: nat)

  const INITIAL := State(0, 0, [], SwitchVariables(0, 0, false), false, false, false, false, false, 0)

  // ---------------------------------------------------------------------
  // One token
  // ---------------------------------------------------------------------

  function BeginLine(st: State, skipped: bool): State
  {
    var st1 := st.(shouldUnindentLine := true, shouldUnindentComment := false, unindented := 0, skipping := skipped);
    if st.unindentNextLine
    then st1.(sw := st.sw.(unindentDepth := st.sw.unindentDepth + 1, unindentCase := true), unindentNextLine := false)
    else st1
  }

  function EnterSwitch(st: State): State
  {
    st.(switchDepth := st.switchDepth + 1, switchStack := st.switchStack + [st.sw],
        sw := st.sw.(switchBraceCount := 0, unindentCase := false))
  }

  /** Is the token handled by `processSwitchBlock`? */
  predicate InSwitch(st: State)
  {
    !st.skipping && st.switchDepth != 0
  }

  /** Directly in a clause whose block was unindented, so not in the block. */
  predicate Between(st: State)
  {
    st.sw.switchBraceCount == 1 && st.sw.unindentCase
  }

  function OpenInSwitch(st: State): State
  {
    var sw := st.sw.(switchBraceCount := st.sw.switchBraceCount + 1);
    if st.lookingForCaseBrace
    then st.(sw := sw.(unindentCase := true, unindentDepth := sw.unindentDepth + 1), lookingForCaseBrace := false)
    else st.(sw := sw)
  }

  /** The end of a switch unindents its line at once, and restores the enclosing switch. */
  function LeaveSwitch(st: State, first: bool): State
    requires |st.switchStack| > 0
  {
    var lineUnindent := if first then Top(st.switchStack).unindentDepth else st.sw.unindentDepth;
    st.(unindented := if st.shouldUnindentLine then (if lineUnindent > 0 then lineUnindent else 0) else st.unindented,
        shouldUnindentLine := false, switchDepth := st.switchDepth - 1,
        sw := Top(st.switchStack), switchStack := Pop(st.switchStack))
  }

  function CloseInSwitch(st: State, first: bool): State
  {
    var st1 := st.(sw := st.sw.(switchBraceCount := st.sw.switchBraceCount - 1), lookingForCaseBrace := false);
    if st1.sw.switchBraceCount == 0 && |st.switchStack| > 0 then LeaveSwitch(st1, first) else st1
  }

  function LabelInSwitch(st: State, end: LabelEnd): State
  {
    var sw := if st.sw.unindentCase then st.sw.(unindentCase := false, unindentDepth := st.sw.unindentDepth - 1) else st.sw;
    match end
    case Nothing => st.(sw := sw, lookingForCaseBrace := true)
    case Brace(oneLine) =>
      st.(sw := sw.(switchBraceCount := sw.switchBraceCount + 1), braceCount := st.braceCount + 1,
          lookingForCaseBrace := false, unindentNextLine := st.unindentNextLine || !oneLine)
  }

  function Step(st: State, t: Token): State
  {
    match t
    case LineStart(skipped) => BeginLine(st, skipped)
    case Switch => EnterSwitch(st)
    case Open =>
      var st1 := st.(braceCount := st.braceCount + 1);
      if InSwitch(st) then OpenInSwitch(st1) else st1
    case Close(first) =>
      var st1 := st.(braceCount := st.braceCount - 1);
      if InSwitch(st) then CloseInSwitch(st1, first) else st1
    case Label(end) =>
      if InSwitch(st) then LabelInSwitch(st, end)
      else if end.Brace? then st.(braceCount := st.braceCount + 1)
      else st
    case Text => if InSwitch(st) then st.(lookingForCaseBrace := false) else st
    case LineComment(first) => if first && Between(st) then st.(shouldUnindentComment := true) else st
    case BlockComment => if Between(st) then st.(shouldUnindentComment := true) else st
  }

  function Run(st: State, toks: seq<Token>): State
    decreases |toks|
  {
    if |toks| == 0 then st else Run(Step(st, toks[0]), toks[1..])
  }

  lemma {:induction false} RunConcat(st: State, a: seq<Token>, b: seq<Token>)
    ensures Run(st, a + b) == Run(Run(st, a), b)
    decreases |a|
  {
    if |a| == 0 {
      assert a + b == b;
    } else {
      assert (a + b)[1..] == a[1..] + b;
      RunConcat(Step(st, a[0]), a[1..], b);
    }
  }

  // ---------------------------------------------------------------------
  // The stack and the depths, in every reachable state
  // ---------------------------------------------------------------------

  /** The variables of a switch against the depth of the switch around it. */
  predicate DeepEnough(outer: int, sw: SwitchVariables)
  {
    sw.unindentDepth >= outer + (if sw.unindentCase then 1 else 0)
  }

  predicate Nested(outer: int, stack: seq<SwitchVariables>, sw: SwitchVariables)
  {
    if |stack| == 0 then DeepEnough(outer, sw)
    else Nested(outer, Pop(stack), Top(stack)) && DeepEnough(Top(stack).unindentDepth, sw)
  }

  predicate Tracked(st: State)
  {
    st.switchDepth == |st.switchStack| && Nested(0, st.switchStack, st.sw)
  }

  lemma {:induction false} NestedIsNonnegative(stack: seq<SwitchVariables>, sw: SwitchVariables)
    requires Nested(0, stack, sw)
    ensures sw.unindentDepth >= (if sw.unindentCase then 1 else 0)
    ensures forall s :: s in stack ==> s.unindentDepth >= 0
  {
    if |stack| > 0 {
      NestedIsNonnegative(Pop(stack), Top(stack));
      assert stack == Pop(stack) + [Top(stack)];
    }
  }

  lemma {:induction false} StepKeepsTracked(st: State, t: Token)
    requires Tracked(st)
    ensures Tracked(Step(st, t))
  {
    if t.Switch? {
      assert Pop(st.switchStack + [st.sw]) == st.switchStack;
    }
  }

  /**
   In every reachable state the depth is the height of the stack, no depth is
   negative, and a closing brace that ends a switch finds a saved one.
   */
  lemma {:induction false} RunKeepsTracked(st: State, toks: seq<Token>)
    requires Tracked(st)
    ensures Tracked(Run(st, toks))
    ensures var end := Run(st, toks);
            end.sw.unindentDepth >= 0 && (InSwitch(end) ==> |end.switchStack| > 0) &&
            (end.sw.unindentCase ==> end.sw.unindentDepth > 0)
    decreases |toks|
  {
    if |toks| > 0 {
      StepKeepsTracked(st, toks[0]);
      RunKeepsTracked(Step(st, toks[0]), toks[1..]);
    } else {
      NestedIsNonnegative(st.switchStack, st.sw);
    }
  }

  // ---------------------------------------------------------------------
  // Brace counts
  // ---------------------------------------------------------------------

  function Sum(stack: seq<SwitchVariables>): int
  {
    if |stack| == 0 then 0 else Sum(Pop(stack)) + Top(stack).switchBraceCount
  }

  /** The braces that no switch has counted. */
  function Uncounted(st: State): int
  {
    st.braceCount - Sum(st.switchStack) - st.sw.switchBraceCount
  }

  /** The braces a token opens or closes without a switch counting them. */
  function OutsideBraces(st: State, t: Token): int
  {
    if InSwitch(st) then 0
    else
      match t
      case Open => 1
      case Close(_) => -1
      case Label(Brace(_)) => 1
      case _ => 0
  }

  function OutsideBracesOf(st: State, toks: seq<Token>): int
    decreases |toks|
  {
    if |toks| == 0 then 0 else OutsideBraces(st, toks[0]) + OutsideBracesOf(Step(st, toks[0]), toks[1..])
  }

  lemma {:induction false} StepConservesBraces(st: State, t: Token)
    requires Tracked(st)
    ensures Uncounted(Step(st, t)) == Uncounted(st) + OutsideBraces(st, t)
  {
    if t.Switch? {
      assert Pop(st.switchStack + [st.sw]) == st.switchStack;
    }
  }

  /**
   Conservation: over any run the brace count, less what all open switches have
   counted, changes only by the braces met outside them or on skipped lines.
   */
  lemma {:induction false} BracesAreConserved(st: State, toks: seq<Token>)
    requires Tracked(st)
    ensures Uncounted(Run(st, toks)) == Uncounted(st) + OutsideBracesOf(st, toks)
    decreases |toks|
  {
    if |toks| > 0 {
      StepConservesBraces(st, toks[0]);
      StepKeepsTracked(st, toks[0]);
      BracesAreConserved(Step(st, toks[0]), toks[1..]);
    }
  }

  /** The braces of a run, from its tokens alone. */
  function NetBrace(t: Token): int
  {
    if t.Open? || (t.Label? && t.end.Brace?) then 1 else if t.Close? then -1 else 0
  }

  function NetBraces(toks: seq<Token>): int
  {
    if |toks| == 0 then 0 else NetBrace(toks[0]) + NetBraces(toks[1..])
  }

  lemma {:induction false} StepIsNet(st: State, t: Token)
    ensures Step(st, t).braceCount == st.braceCount + NetBrace(t)
  {
  }

  /** The brace count is the braces opened less those closed, whether a switch counts them too or the line is skipped. */
  lemma {:induction false} BraceCountIsNet(st: State, toks: seq<Token>)
    ensures Run(st, toks).braceCount == st.braceCount + NetBraces(toks)
    decreases |toks|
  {
    if |toks| > 0 {
      StepIsNet(st, toks[0]);
      BraceCountIsNet(Step(st, toks[0]), toks[1..]);
    }
  }

  predicate AllSkipped(toks: seq<Token>)
  {
    forall i :: 0 <= i < |toks| ==> toks[i] != LineStart(false)
  }

  function Keywords(toks: seq<Token>): nat
  {
    if |toks| == 0 then 0 else (if toks[0].Switch? then 1 else 0) + Keywords(toks[1..])
  }

  /**
   With case-indent on, every line is skipped: none is unindented, whatever it holds, and
   the depth only counts the `switch` keywords met.
   */
  lemma {:induction false} SkippedLinesStay(st: State, toks: seq<Token>)
    requires AllSkipped(toks) && Unmoved(st)
    ensures var end := Run(st, toks); Unmoved(end) && Amount(end) == 0 && end.switchDepth == st.switchDepth + Keywords(toks)
    decreases |toks|
  {
    if |toks| > 0 {
      assert toks[0] in toks;
      SkippedLinesStay(Step(st, toks[0]), toks[1..]);
    }
  }

  predicate Unmoved(st: State)
  {
    st.skipping && st.sw.unindentDepth == 0 && !st.sw.unindentCase && !st.lookingForCaseBrace && !st.unindentNextLine &&
    !st.shouldUnindentComment && st.unindented == 0
  }

  /** Within a skipped line nothing is lost or gained by the switch around it. */
  lemma {:induction false} SkippedLineKeepsSwitch(st: State, toks: seq<Token>)
    requires st.skipping && forall i :: 0 <= i < |toks| ==> !toks[i].LineStart? && !toks[i].Switch?
    ensures var end := Run(st, toks);
            end.sw == st.sw && end.switchStack == st.switchStack && end.switchDepth == st.switchDepth &&
            end.lookingForCaseBrace == st.lookingForCaseBrace && end.unindentNextLine == st.unindentNextLine &&
            end.unindented == st.unindented && end.shouldUnindentLine == st.shouldUnindentLine && end.skipping
    decreases |toks|
  {
    if |toks| > 0 {
      SkippedLineKeepsSwitch(Step(st, toks[0]), toks[1..]);
    }
  }

  /** The assertion of the code at a closing brace in a switch. */
  predicate AssertionHolds(st: State, t: Token)
  {
    t.Close? && InSwitch(st) ==> st.sw.switchBraceCount - 1 <= st.braceCount - 1
  }

  /** The run never leaves the innermost `height` switches. */
  predicate StaysInside(st: State, toks: seq<Token>, height: nat)
    decreases |toks|
  {
    |st.switchStack| >= height && (|toks| > 0 ==> StaysInside(Step(st, toks[0]), toks[1..], height))
  }

  /** Only `switch` saves variables, and only the top of the stack is ever taken. */
  lemma {:induction false} StackStep(st: State, t: Token)
    ensures t.Switch? ==> |Step(st, t).switchStack| == |st.switchStack| + 1
    ensures !t.Switch? ==> |Step(st, t).switchStack| <= |st.switchStack|
    ensures Step(st, t).switchStack <= st.switchStack || st.switchStack <= Step(st, t).switchStack
  {
  }

  lemma {:induction false} SavedSwitchesStay(st: State, toks: seq<Token>, height: nat)
    requires StaysInside(st, toks, height)
    ensures var end := Run(st, toks);
            |end.switchStack| >= height && end.switchStack[..height] == st.switchStack[..height]
    decreases |toks|
  {
    if |toks| > 0 {
      StackStep(st, toks[0]);
      SavedSwitchesStay(Step(st, toks[0]), toks[1..], height);
    }
  }

  /** The brace count at the keyword of a switch, and the braces met since on skipped lines. */
  function EntryCount(st: State, toks: seq<Token>): int
  {
    st.braceCount + OutsideBracesOf(Step(st, Switch), toks)
  }

  /**
   At a closing brace in a switch, however much lies between its keyword and the
   brace, the assertion holds exactly when the count at the keyword, with the braces
   of skipped lines, is not negative.
   */
  lemma {:induction false} AssertionMeansEntry(st: State, toks: seq<Token>, close: Token)
    requires Tracked(st) && close.Close?
    requires var st1 := Step(st, Switch);
             var end := Run(st1, toks);
             StaysInside(st1, toks, |st1.switchStack|) && |end.switchStack| == |st1.switchStack| && InSwitch(end)
    ensures AssertionHolds(Run(Step(st, Switch), toks), close) <==> EntryCount(st, toks) >= 0
  {
    var st1 := Step(st, Switch);
    var end := Run(st1, toks);
    StepKeepsTracked(st, Switch);
    BracesAreConserved(st1, toks);
    SavedSwitchesStay(st1, toks, |st1.switchStack|);
    assert end.switchStack[..|st1.switchStack|] == end.switchStack && st1.switchStack[..|st1.switchStack|] == st1.switchStack;
  }

  /** The state before the token at place `i`. */
  function Before(toks: seq<Token>, i: nat): State
    requires i <= |toks|
  {
    Run(INITIAL, toks[..i])
  }

  predicate ClosesInSwitch(toks: seq<Token>, i: nat)
  {
    i < |toks| && toks[i].Close? && InSwitch(Before(toks, i))
  }

  /** The innermost switch open before place `i` has its keyword at place `j`. */
  predicate OwnSwitch(toks: seq<Token>, j: nat, i: nat)
  {
    j < i <= |toks| && toks[j].Switch? && |Before(toks, i).switchStack| == |Before(toks, j).switchStack| + 1 &&
    forall k :: j < k <= i ==> |Before(toks, k).switchStack| > |Before(toks, j).switchStack|
  }

  lemma {:induction false} BeforeNext(toks: seq<Token>, i: nat)
    requires i < |toks|
    ensures Before(toks, i + 1) == Step(Before(toks, i), toks[i]) && Tracked(Before(toks, i))
  {
    assert toks[..i + 1] == toks[..i] + [toks[i]];
    RunConcat(INITIAL, toks[..i], [toks[i]]);
    assert [toks[i]][1..] == [];
    RunKeepsTracked(INITIAL, toks[..i]);
  }

  /** For every open switch the run holds the keyword that opened it. */
  lemma {:induction false} KeywordOf(toks: seq<Token>, i: nat, height: nat) returns (j: nat)
    requires i <= |toks| && 0 < height <= |Before(toks, i).switchStack|
    ensures j < i && toks[j].Switch? && |Before(toks, j).switchStack| == height - 1
    ensures forall k :: j < k <= i ==> |Before(toks, k).switchStack| >= height
    decreases i
  {
    assert toks[..0] == [];
    if i > 0 {
      BeforeNext(toks, i - 1);
      StackStep(Before(toks, i - 1), toks[i - 1]);
      if |Before(toks, i - 1).switchStack| >= height {
        j := KeywordOf(toks, i - 1, height);
      } else {
        j := i - 1;
      }
    }
  }

  lemma {:induction false} InsideBetween(toks: seq<Token>, j: nat, i: nat, height: nat)
    requires j <= i <= |toks| && forall k :: j <= k <= i ==> |Before(toks, k).switchStack| >= height
    ensures StaysInside(Before(toks, j), toks[j..i], height) && Run(Before(toks, j), toks[j..i]) == Before(toks, i)
    decreases i - j
  {
    if j < i {
      BeforeNext(toks, j);
      assert toks[j..i][1..] == toks[j + 1..i] && toks[j..i][0] == toks[j];
      InsideBetween(toks, j + 1, i, height);
    }
  }

  /** One closing brace of a run, against the keyword of its own switch. */
  lemma {:induction false} AssertionAtClose(toks: seq<Token>, j: nat, i: nat)
    requires ClosesInSwitch(toks, i) && OwnSwitch(toks, j, i)
    ensures AssertionHolds(Before(toks, i), toks[i]) <==> EntryCount(Before(toks, j), toks[j + 1..i]) >= 0
  {
    BeforeNext(toks, j);
    InsideBetween(toks, j + 1, i, |Before(toks, j).switchStack| + 1);
    AssertionMeansEntry(Before(toks, j), toks[j + 1..i], toks[i]);
  }

  lemma {:induction false} NeverFailsEverywhere(toks: seq<Token>, i: nat)
    requires i <= |toks|
    ensures AssertionNeverFails(Before(toks, i), toks[i..]) <==>
            forall k :: i <= k < |toks| ==> AssertionHolds(Before(toks, k), toks[k])
    decreases |toks| - i
  {
    if i < |toks| {
      BeforeNext(toks, i);
      assert toks[i..][0] == toks[i] && toks[i..][1..] == toks[i + 1..];
      NeverFailsEverywhere(toks, i + 1);
    }
  }

  /**
   The assertion over a whole run: it never fails if and only if, at every closing
   brace met in a switch, the count at the keyword of that switch, with the braces of
   skipped lines since, is not negative.
   */
  lemma {:induction false} AssertionNeverFailsExactly(toks: seq<Token>)
    ensures AssertionNeverFails(INITIAL, toks) <==>
            forall j: nat, i: nat :: ClosesInSwitch(toks, i) && OwnSwitch(toks, j, i) ==>
              EntryCount(Before(toks, j), toks[j + 1..i]) >= 0
  {
    NeverFailsEverywhere(toks, 0);
    assert toks[..0] == [] && toks[0..] == toks;
    forall j: nat, i: nat | ClosesInSwitch(toks, i) && OwnSwitch(toks, j, i)
      ensures AssertionHolds(Before(toks, i), toks[i]) <==> EntryCount(Before(toks, j), toks[j + 1..i]) >= 0
    {
      AssertionAtClose(toks, j, i);
    }
    forall i: nat | ClosesInSwitch(toks, i) ensures exists j: nat :: OwnSwitch(toks, j, i) {
      OwnSwitchExists(toks, i);
    }
  }

  lemma {:induction false} OwnSwitchExists(toks: seq<Token>, i: nat)
    requires ClosesInSwitch(toks, i)
    ensures exists j: nat :: OwnSwitch(toks, j, i)
  {
    BeforeNext(toks, i);
    var j := KeywordOf(toks, i, |Before(toks, i).switchStack|);
    assert OwnSwitch(toks, j, i);
  }

  /** With no skipped line, only the count at the keyword matters. */
  lemma {:induction false} EntryWithoutSkips(st: State, toks: seq<Token>)
    requires var st1 := Step(st, Switch);
             Tracked(st) && StaysInside(st1, toks, |st1.switchStack|) && NoSkippedLines(st1, toks)
    ensures EntryCount(st, toks) == st.braceCount
  {
    StepKeepsTracked(st, Switch);
    NothingOutside(Step(st, Switch), toks, |st.switchStack| + 1);
  }

  lemma {:induction false} NothingOutside(st: State, toks: seq<Token>, height: nat)
    requires Tracked(st) && height > 0 && StaysInside(st, toks, height) && NoSkippedLines(st, toks)
    ensures OutsideBracesOf(st, toks) == 0
    decreases |toks|
  {
    if |toks| > 0 {
      StepKeepsTracked(st, toks[0]);
      SkippingStep(st, toks);
      NothingOutside(Step(st, toks[0]), toks[1..], height);
    }
  }

  predicate NoSkippedLines(st: State, toks: seq<Token>)
  {
    !st.skipping && forall t :: t in toks ==> !(t.LineStart? && t.skipped)
  }

  predicate AssertionNeverFails(st: State, toks: seq<Token>)
    decreases |toks|
  {
    |toks| == 0 || (AssertionHolds(st, toks[0]) && AssertionNeverFails(Step(st, toks[0]), toks[1..]))
  }

  lemma {:induction false} SkippingStep(st: State, toks: seq<Token>)
    requires |toks| > 0 && NoSkippedLines(st, toks)
    ensures NoSkippedLines(Step(st, toks[0]), toks[1..])
  {
    assert toks[0] in toks;
    assert forall t :: t in toks[1..] ==> t in toks;
  }

  lemma {:induction false} NoSkipBetween(toks: seq<Token>, j: nat, i: nat)
    requires NoSkippedLines(INITIAL, toks) && j <= i <= |toks|
    ensures NoSkippedLines(Before(toks, j), toks[j..i])
    decreases j
  {
    if j == 0 {
      assert toks[..0] == [];
      assert forall t :: t in toks[..i] ==> t in toks;
      assert toks[0..i] == toks[..i];
    } else {
      NoSkipBetween(toks, j - 1, i);
      BeforeNext(toks, j - 1);
      assert toks[j - 1..i][0] == toks[j - 1] && toks[j - 1..i][1..] == toks[j..i];
      SkippingStep(Before(toks, j - 1), toks[j - 1..i]);
    }
  }

  /**
   On a run without skipped lines it never fails if and only if the brace count was
   not negative at the keyword of any switch in which a closing brace is met.
   */
  lemma {:induction false} AssertionWithoutSkips(toks: seq<Token>)
    requires NoSkippedLines(INITIAL, toks)
    ensures AssertionNeverFails(INITIAL, toks) <==>
            forall j: nat, i: nat :: ClosesInSwitch(toks, i) && OwnSwitch(toks, j, i) ==> Before(toks, j).braceCount >= 0
  {
    AssertionNeverFailsExactly(toks);
    forall j: nat, i: nat | ClosesInSwitch(toks, i) && OwnSwitch(toks, j, i)
      ensures EntryCount(Before(toks, j), toks[j + 1..i]) == Before(toks, j).braceCount
    {
      BeforeNext(toks, j);
      InsideBetween(toks, j + 1, i, |Before(toks, j).switchStack| + 1);
      NoSkipBetween(toks, j + 1, i);
      EntryWithoutSkips(Before(toks, j), toks[j + 1..i]);
    }
  }

  /** After a stray closing brace the next switch makes the assertion fail. */
  lemma {:induction false} AssertionFailsBelowZero(st: State, first: bool)
    requires Tracked(st) && !st.skipping && st.braceCount < 0
    ensures !AssertionNeverFails(st, [Switch, Open, Close(first)])
  {
    var st1 := Step(st, Switch);
    var st2 := Step(st1, Open);
    assert [Switch, Open, Close(first)][1..] == [Open, Close(first)] && [Open, Close(first)][1..] == [Close(first)];
    assert st2.sw.switchBraceCount == 1 && st2.braceCount == st.braceCount + 1;
    assert !AssertionHolds(st2, Close(first));
    assert !AssertionNeverFails(st2, [Close(first)]);
    assert !AssertionNeverFails(st1, [Open, Close(first)]);
  }

  /** What the current line would be unindented by if it ended now. */
  function Amount(st: State): int
  {
    st.unindented + if st.shouldUnindentComment && st.sw.unindentDepth > 0 then st.sw.unindentDepth - 1
                    else if st.shouldUnindentLine && st.sw.unindentDepth > 0 then st.sw.unindentDepth
                    else 0
  }

  // ---------------------------------------------------------------------
  // The enhancer object
  // ---------------------------------------------------------------------

  class Enhancer {
    var braceCount: int
    var switchDepth: int
    var switchStack: seq<SwitchVariables>
    var sw: SwitchVariables
    var lookingForCaseBrace: bool
    var unindentNextLine: bool
    var skipping: bool
    var shouldUnindentLine: bool
    var shouldUnindentComment: bool
    var unindented: nat

    ghost function View(): State
      reads this
    {
      State(braceCount, switchDepth, switchStack, sw, lookingForCaseBrace, unindentNextLine, skipping,
            shouldUnindentLine, shouldUnindentComment, unindented)
    }

    constructor ()
      ensures View() == INITIAL && Tracked(View())
    {
      braceCount, switchDepth, switchStack, sw := 0, 0, [], SwitchVariables(0, 0, false);
      lookingForCaseBrace, unindentNextLine, skipping := false, false, false;
      shouldUnindentLine, shouldUnindentComment, unindented := false, false, 0;
    }

    method StartLine(skipped: bool)
      requires Tracked(View())
      modifies this
      ensures Tracked(View()) && View() == Step(old(View()), LineStart(skipped))
    {
      StepKeepsTracked(View(), LineStart(skipped));
      shouldUnindentLine, shouldUnindentComment, unindented, skipping := true, false, 0, skipped;
      if unindentNextLine {
        sw := sw.(unindentDepth := sw.unindentDepth + 1, unindentCase := true);
        unindentNextLine := false;
      }
    }

    /** A run of tokens. */
    method ParseAll(toks: seq<Token>)
      requires Tracked(View())
      modifies this
      ensures Tracked(View()) && View() == Run(old(View()), toks)
    {
      var i := 0;
      assert toks[0..] == toks;
      while i < |toks|
        invariant 0 <= i <= |toks| && Tracked(View())
        invariant Run(View(), toks[i..]) == Run(old(View()), toks)
      {
        assert toks[i..][0] == toks[i] && toks[i..][1..] == toks[i + 1..];
        if toks[i].LineStart? {
          StartLine(toks[i].skipped);
        } else {
          ParseToken(toks[i]);
        }
        i := i + 1;
      }
      assert toks[i..] == [];
    }

    /** One token of the line, as the character loop meets it. */
    method ParseToken(t: Token)
      requires Tracked(View()) && !t.LineStart?
      modifies this
      ensures Tracked(View()) && View() == Step(old(View()), t)
    {
      StepKeepsTracked(View(), t);
      if t.LineComment? || t.BlockComment? {
        ParseComment(t);
      } else if t.Switch? {
        switchDepth := switchDepth + 1;
        switchStack := switchStack + [sw];
        sw := sw.(switchBraceCount := 0, unindentCase := false);
      } else {
        ParseText(t);
      }
    }

    /** A line comment counts only where its line begins, a block comment anywhere. */
    method ParseComment(t: Token)
      requires t.LineComment? || t.BlockComment?
      modifies this`shouldUnindentComment
      ensures View() == Step(old(View()), t)
    {
      if t.LineComment? {
        if t.first && sw.switchBraceCount == 1 && sw.unindentCase {
          shouldUnindentComment := true;
        }
      } else if sw.switchBraceCount == 1 && sw.unindentCase {
        shouldUnindentComment := true;
      }
    }

    /** Braces are counted everywhere, the rest only in a switch. */
    method ParseText(t: Token)
      requires Tracked(View()) && !t.LineStart? && !t.LineComment? && !t.BlockComment? && !t.Switch?
      modifies this
      ensures View() == Step(old(View()), t)
    {
      if t.Open? {
        braceCount := braceCount + 1;
      }
      if t.Close? {
        braceCount := braceCount - 1;
      }
      if skipping || switchDepth == 0 {
        if t.Label? && t.end.Brace? {
          braceCount := braceCount + 1;
        }
        return;
      }
      ProcessSwitchBlock(t);
    }

    method ProcessSwitchBlock(t: Token)
      requires switchDepth == |switchStack| > 0
      requires t.Open? || t.Close? || t.Label? || t.Text?
      modifies this
      ensures View() == match t
                        case Open => OpenInSwitch(old(View()))
                        case Close(first) => CloseInSwitch(old(View()), first)
                        case Label(end) => LabelInSwitch(old(View()), end)
                        case _ => old(View()).(lookingForCaseBrace := false)
    {
      if t.Open? {
        OpenBrace();
        return;
      }
      lookingForCaseBrace := false;
      if t.Close? {
        CloseBrace(t.first);
      } else if t.Label? {
        CaseLabel(t.end);
      }
    }

    method OpenBrace()
      modifies this`sw, this`lookingForCaseBrace
      ensures View() == OpenInSwitch(old(View()))
    {
      sw := sw.(switchBraceCount := sw.switchBraceCount + 1);
      if lookingForCaseBrace {
        sw := sw.(unindentCase := true);
        sw := sw.(unindentDepth := sw.unindentDepth + 1);
        lookingForCaseBrace := false;
      }
    }

    method CloseBrace(first: bool)
      requires |switchStack| > 0 && !lookingForCaseBrace
      modifies this
      ensures View() == CloseInSwitch(old(View()), first)
    {
      sw := sw.(switchBraceCount := sw.switchBraceCount - 1);
      if sw.switchBraceCount == 0 {
        var lineUnindent := sw.unindentDepth;
        if first {
          lineUnindent := Top(switchStack).unindentDepth;
        }
        if shouldUnindentLine {
          unindented := if lineUnindent > 0 then lineUnindent else 0;
          shouldUnindentLine := false;
        }
        switchDepth := switchDepth - 1;
        sw := Top(switchStack);
        switchStack := Pop(switchStack);
      }
    }

    method CaseLabel(end: LabelEnd)
      requires !lookingForCaseBrace
      modifies this`braceCount, this`sw, this`lookingForCaseBrace, this`unindentNextLine
      ensures View() == LabelInSwitch(old(View()), end)
    {
      if sw.unindentCase {
        sw := sw.(unindentCase := false);
        sw := sw.(unindentDepth := sw.unindentDepth - 1);
      }
      if end.Brace? {
        braceCount := braceCount + 1;
        sw := sw.(switchBraceCount := sw.switchBraceCount + 1);
        if !end.oneLineBlock {
          unindentNextLine := true;
        }
      } else {
        lookingForCaseBrace := true;
      }
    }

    /** What the end of the line adds to what a closing brace has already taken. */
    method EndLine() returns (amount: int)
      requires Tracked(View())
      ensures amount == Amount(View()) && amount >= 0
    {
      NestedIsNonnegative(switchStack, sw);
      amount := unindented;
      if shouldUnindentComment && sw.unindentDepth > 0 {
        amount := amount + sw.unindentDepth - 1;
      } else if shouldUnindentLine && sw.unindentDepth > 0 {
        amount := amount + sw.unindentDepth;
      }
    }
  }
}
