/**
 The continuation-indent stacks of ASBeautifier: the columns that the lines of an
 unfinished statement are aligned to, one for each open paren, bracket, array
 brace or assignment.
 */
module ContinuationIndent {
  import opened Stacks

  datatype Settings = Settings(indentLength: int, continuationIndent: nat, maxContinuationIndent: int,
                               shouldIndentAfterParen: bool)

  type Options = o: Settings | o.indentLength > 0 witness Settings(4, 1, 40, false)

  /**
   Where a continuation is registered: `distance` is how far the next character of
   the program is, the rest of the line if there is none.
   */
  datatype Spot = Spot(line: string, index: nat, distance: nat, minIndent: int, tabIncrement: nat, runInIndent: int,
                       arrayInit: bool, freeArray: bool)

  type Place = p: Spot | p.index < |p.line| && 0 < p.distance <= |p.line| - p.index
    witness Spot("(", 0, 1, 0, 0, 0, false, false)

  datatype Token =
    | Line                                    // a line begins
    | Open(place: Place)                      // a paren, a square bracket or an array brace
    | Close(leads: bool)                      // `leads`: it is the first character of its line
    | Assign(place: Place, plain: bool)       // an assignment, or (not `plain`) a header such as `return`
    | Align(column: int)                      // the first of several assignments, aligned on the word before it
    | Comma(continues: bool, column: int)     // `continues`: it ends the line and starts a continuation
    | Semicolon
    | BlockBrace
    | BlockClose(leads: bool)

  /**
   `columns` is `continuationIndentStack`, `sizes` holds its height at each opener,
   `depths` the paren depth at each block brace, `space` is `spaceIndentCount`.
   */
  datatype State = State(columns: seq<int>, sizes: seq<int>, parenColumns: seq<int>, parenDepth: int, depths: seq<int>,
                         space: int)

  const INITIAL := State([], [0], [], 0, [], 0)

  // ---------------------------------------------------------------------
  // The column of one entry
  // ---------------------------------------------------------------------

  function TabIncrement(line: string, j: nat, end: nat, tabs: nat, length: int): nat
    requires end <= |line| && length > 0
    decreases end - j
  {
    if j >= end then tabs
    else TabIncrement(line, j + 1, end, if line[j] == '\t' then tabs + length - 1 - (tabs + j) % length else tabs, length)
  }

  /** The visual column reached after line[j..end], with a tab stop every `length` columns. */
  function VisualColumn(line: string, j: nat, end: nat, column: nat, length: int): nat
    requires end <= |line| && length > 0
    decreases end - j
  {
    if j >= end then column
    else VisualColumn(line, j + 1, end, if line[j] == '\t' then NextStop(column, length) else column + 1, length)
  }

  /** The first multiple of `length` past `column`. */
  function NextStop(column: nat, length: int): (r: nat)
    requires length > 0
    ensures column < r <= column + length
  {
    assert column / length * length + column % length == column;
    (column / length + 1) * length
  }

  /** The tabs that follow an opener are counted as the tab stops they reach. */
  lemma {:induction false} TabsReachTheirStops(line: string, j: nat, end: nat, tabs: nat, length: int)
    requires j <= end <= |line| && length > 0
    ensures end + TabIncrement(line, j, end, tabs, length) == VisualColumn(line, j, end, j + tabs, length)
    decreases end - j
  {
    if j < end {
      var next := if line[j] == '\t' then tabs + length - 1 - (tabs + j) % length else tabs;
      assert line[j] == '\t' ==> NextStop(j + tabs, length) == j + 1 + next by {
        assert (j + tabs) / length * length + (j + tabs) % length == j + tabs;
      }
      TabsReachTheirStops(line, j + 1, end, next, length);
    }
  }

  /** The entry hangs from the one below instead of aligning to text on its own line. */
  predicate Hangs(p: Place, o: Options)
  {
    p.distance == |p.line| - p.index || o.shouldIndentAfterParen
  }

  function Below(st: State): int
  {
    if |st.columns| > 0 then Top(st.columns) else st.space
  }

  function HangingColumn(st: State, p: Place, o: Options): int
  {
    var column := o.continuationIndent * o.indentLength + Below(st);
    if column > o.maxContinuationIndent && p.line[p.index] != '{' then o.indentLength * 2 + st.space else column
  }

  function AlignedColumn(st: State, p: Place, o: Options): int
  {
    var tabs := TabIncrement(p.line, p.index + 1, p.index + p.distance, p.tabIncrement, o.indentLength);
    var c0 := p.index + p.distance + st.space + tabs;
    var c1 := if p.index > 0 && p.line[0] == '{' then c0 - o.indentLength else c0;
    var c2 := if c1 < p.minIndent then p.minIndent + st.space else c1;
    var c3 := if c2 > o.maxContinuationIndent && !p.arrayInit then o.indentLength * 2 + st.space else c2;
    var c4 := if |st.columns| > 0 && c3 < Top(st.columns) then Top(st.columns) else c3;
    if p.freeArray && p.line[p.index] == '{' then 0 else c4
  }

  function Column(st: State, p: Place, o: Options): int
  {
    if Hangs(p, o) then HangingColumn(st, p, o) else AlignedColumn(st, p, o)
  }

  function ParenColumn(st: State, p: Place, o: Options): int
  {
    if Hangs(p, o) then Below(st) else p.index + st.space - p.runInIndent
  }

  /**
   The entry lands left of the one below it: a hanging one too far right falls back
   to two indents from the line, an array brace outside a statement to the margin.
   */
  predicate Falls(st: State, p: Place, o: Options)
  {
    |st.columns| > 0 &&
    if Hangs(p, o) then
      o.continuationIndent * o.indentLength + Top(st.columns) > o.maxContinuationIndent &&
      p.line[p.index] != '{' && o.indentLength * 2 + st.space < Top(st.columns)
    else p.freeArray && p.line[p.index] == '{' && Top(st.columns) > 0
  }

  // ---------------------------------------------------------------------
  // One token
  // ---------------------------------------------------------------------

  function PopLast(st: State): State
    requires |st.sizes| > 0
  {
    st.(sizes := if |st.sizes| > 1 then Pop(st.sizes) else st.sizes, columns := Truncated(st.columns, Top(st.sizes)))
  }

  function Purged(st: State): State
    requires |st.sizes| > 0
  {
    st.(columns := Truncated(st.columns, Top(st.sizes) + (if st.parenDepth > 0 then 1 else 0)))
  }

  /** Every nested entry is dropped: the loop at a block brace. */
  function PurgedAll(st: State): State
    requires |st.sizes| > 0 && st.sizes[0] == 0
    decreases |st.sizes|
  {
    if |st.columns| == 0 then st
    else if |st.sizes| == 1 then st.(columns := [])
    else PurgedAll(PopLast(st))
  }

  function OpenOne(st: State, p: Place, o: Options): State
  {
    st.(sizes := st.sizes + [|st.columns|], columns := st.columns + [Column(st, p, o)],
        parenColumns := st.parenColumns + [ParenColumn(st, p, o)], parenDepth := st.parenDepth + 1)
  }

  function CloseOne(st: State, leads: bool): State
    requires |st.sizes| > 0
  {
    var st1 := PopLast(st).(parenDepth := st.parenDepth - 1);
    if |st.parenColumns| == 0 then st1
    else st1.(parenColumns := Pop(st.parenColumns), space := if leads then Top(st.parenColumns) else st.space)
  }

  /** An assignment that begins its line is itself indented first. */
  function Led(st: State, p: Place, plain: bool, o: Options): State
  {
    if plain && p.index == 0 && st.space == 0 then st.(space := o.indentLength) else st
  }

  predicate Sound(st: State)
  {
    |st.sizes| > 0 && st.sizes[0] == 0 && forall i :: 0 <= i < |st.sizes| ==> st.sizes[i] >= 0
  }

  function Step(st: State, t: Token, o: Options): State
    requires Sound(st)
  {
    match t
    case Line => st.(space := if |st.columns| > 0 then Top(st.columns) else 0)
    case Open(place) => OpenOne(st, place, o)
    case Close(leads) => CloseOne(st, leads)
    case Assign(place, plain) =>
      var st1 := Led(st, place, plain, o);
      st1.(columns := st1.columns + [Column(st1, place, o)])
    case Align(column) => st.(columns := st.columns + [column])
    case Comma(continues, column) =>
      if st.parenDepth > 0 then Purged(st)
      else if st.parenDepth == 0 && continues then st.(columns := st.columns + [column])
      else st
    case Semicolon => Purged(st)
    case BlockBrace =>
      PurgedAll(st).(parenDepth := 0, depths := st.depths + [st.parenDepth],
                     space := if |st.columns| > 0 then 0 else st.space)
    case BlockClose(leads) =>
      var st1 := PopLast(st).(space := if leads then 0 else st.space);
      if |st.depths| == 0 then st1 else st1.(parenDepth := Top(st.depths), depths := Pop(st.depths))
  }

  lemma {:induction false} PurgedAllIsEmpty(st: State)
    requires Sound(st)
    ensures var end := PurgedAll(st); end.columns == [] && Sound(end) && end.sizes <= st.sizes
    ensures PurgedAll(st) == st.(columns := [], sizes := PurgedAll(st).sizes)
    decreases |st.sizes|
  {
    if |st.columns| > 0 && |st.sizes| > 1 {
      PurgedAllIsEmpty(PopLast(st));
    }
  }

  /** The base entry of the sizes stays 0, whatever the tokens. */
  lemma {:induction false} StepKeepsSound(st: State, t: Token, o: Options)
    requires Sound(st)
    ensures Sound(Step(st, t, o))
  {
    if t.BlockBrace? {
      PurgedAllIsEmpty(st);
    }
  }

  function Run(st: State, toks: seq<Token>, o: Options): (r: State)
    requires Sound(st)
    ensures Sound(r)
    decreases |toks|
  {
    if |toks| == 0 then st
    else
      StepKeepsSound(st, toks[0], o);
      Run(Step(st, toks[0], o), toks[1..], o)
  }

  /** At a block brace no column is left, after any run, and its line stands at the margin if one was. */
  lemma {:induction false} BlockBraceEmpties(toks: seq<Token>, o: Options)
    ensures var st := Run(INITIAL, toks, o);
            var end := Step(st, BlockBrace, o);
            end.columns == [] && end.space == if st.columns == [] then st.space else 0
  {
    PurgedAllIsEmpty(Run(INITIAL, toks, o));
  }

  lemma {:induction false} RunConcat(st: State, a: seq<Token>, b: seq<Token>, o: Options)
    requires Sound(st)
    ensures Run(st, a + b, o) == Run(Run(st, a, o), b, o)
    decreases |a|
  {
    if |a| == 0 {
      assert a + b == b;
    } else {
      assert (a + b)[1..] == a[1..] + b;
      StepKeepsSound(st, a[0], o);
      RunConcat(Step(st, a[0], o), a[1..], b, o);
    }
  }

  lemma {:induction false} RunOne(st: State, t: Token, o: Options)
    requires Sound(st)
    ensures Run(st, [t], o) == Step(st, t, o)
  {
    StepKeepsSound(st, t, o);
    assert [t][1..] == [];
  }

  // ---------------------------------------------------------------------
  // Inner entries stand to the right of outer ones
  // ---------------------------------------------------------------------

  predicate Rising(columns: seq<int>)
  {
    forall i, j :: 0 <= i < j < |columns| ==> columns[i] <= columns[j]
  }

  predicate TokenFalls(st: State, t: Token, o: Options)
  {
    match t
    case Open(place) => Falls(st, place, o)
    case Assign(place, plain) => Falls(Led(st, place, plain, o), place, o)
    case Align(column) => |st.columns| > 0 && column < Top(st.columns)
    case Comma(continues, column) => st.parenDepth == 0 && continues && |st.columns| > 0 && column < Top(st.columns)
    case _ => false
  }

  lemma {:induction false} ColumnRises(st: State, p: Place, o: Options)
    requires |st.columns| > 0
    ensures Column(st, p, o) >= Top(st.columns) <==> !Falls(st, p, o)
  {
    assert o.continuationIndent * o.indentLength >= 0;
  }

  lemma {:induction false} PushRises(columns: seq<int>, column: int)
    requires Rising(columns)
    ensures Rising(columns + [column]) <==> |columns| == 0 || column >= Top(columns)
  {
    var all := columns + [column];
    if |columns| > 0 {
      assert all[|columns| - 1] == Top(columns) && all[|columns|] == column;
    }
  }

  lemma {:induction false} StepRises(st: State, t: Token, o: Options)
    requires Sound(st) && Rising(st.columns)
    ensures Rising(Step(st, t, o).columns) <==> !TokenFalls(st, t, o)
  {
    match t
    case Open(place) =>
      PushRises(st.columns, Column(st, place, o));
      if |st.columns| > 0 {
        ColumnRises(st, place, o);
      }
    case Assign(place, plain) =>
      var st1 := Led(st, place, plain, o);
      PushRises(st1.columns, Column(st1, place, o));
      if |st1.columns| > 0 {
        ColumnRises(st1, place, o);
      }
    case Align(column) => PushRises(st.columns, column);
    case Comma(_, column) => PushRises(st.columns, column);
    case BlockBrace => PurgedAllIsEmpty(st);
    case _ =>
  }

  predicate AlwaysRising(st: State, toks: seq<Token>, o: Options)
    requires Sound(st)
    decreases |toks|
  {
    Rising(st.columns) &&
    (|toks| > 0 ==> (StepKeepsSound(st, toks[0], o); AlwaysRising(Step(st, toks[0], o), toks[1..], o)))
  }

  predicate NeverFalls(st: State, toks: seq<Token>, o: Options)
    requires Sound(st)
    decreases |toks|
  {
    |toks| > 0 ==>
      !TokenFalls(st, toks[0], o) && (StepKeepsSound(st, toks[0], o); NeverFalls(Step(st, toks[0], o), toks[1..], o))
  }

  /** Through a whole run, the columns rise from the outermost to the innermost exactly when no token falls. */
  lemma {:induction false} RunRises(st: State, toks: seq<Token>, o: Options)
    requires Sound(st) && Rising(st.columns)
    ensures AlwaysRising(st, toks, o) <==> NeverFalls(st, toks, o)
    decreases |toks|
  {
    if |toks| > 0 {
      StepKeepsSound(st, toks[0], o);
      StepRises(st, toks[0], o);
      if !TokenFalls(st, toks[0], o) {
        RunRises(Step(st, toks[0], o), toks[1..], o);
      }
    }
  }

  // ---------------------------------------------------------------------
  // Balanced text
  // ---------------------------------------------------------------------

  datatype Item =
    | Mark(t: Token)
    | Group(place: Place, items: seq<Item>, leads: bool)

  predicate Balanced(item: Item)
  {
    match item
    case Mark(t) => t.Line? || t.Assign? || t.Align? || t.Comma? || t.Semicolon?
    case Group(_, items, _) => forall i :: i in items ==> Balanced(i)
  }

  function Tokens(item: Item): seq<Token>
    decreases item, 0
  {
    match item
    case Mark(t) => [t]
    case Group(place, items, leads) => [Open(place)] + (AllTokens(items) + [Close(leads)])
  }

  function AllTokens(items: seq<Item>): seq<Token>
    decreases items, 1
  {
    if |items| == 0 then [] else Tokens(items[0]) + AllTokens(items[1..])
  }

  /** Balanced text inside an opener of height `floor`: nothing below it is touched. */
  predicate Keeps(st: State, end: State, floor: nat)
  {
    end.sizes == st.sizes && end.parenDepth == st.parenDepth && end.depths == st.depths &&
    end.parenColumns == st.parenColumns &&
    |st.columns| >= floor && |end.columns| >= floor && end.columns[..floor] == st.columns[..floor]
  }

  /** Between an opener and its closer; `floor` is the height at the opener. */
  predicate Inside(st: State, floor: nat)
  {
    Sound(st) && Top(st.sizes) == floor && |st.columns| >= floor
  }

  lemma {:induction false} RunsMark(st: State, t: Token, floor: nat, o: Options)
    requires Inside(st, floor) && Balanced(Mark(t))
    ensures Inside(Step(st, t, o), floor) && Keeps(st, Step(st, t, o), floor)
  {
    match t
    case Assign(_, _) =>
    case Align(_) =>
    case Comma(_, _) =>
    case _ =>
  }

  lemma {:induction false} RunsItem(st: State, item: Item, floor: nat, o: Options)
    requires Inside(st, floor) && Balanced(item)
    ensures Inside(Run(st, Tokens(item), o), floor) && Keeps(st, Run(st, Tokens(item), o), floor)
    decreases item, 1
  {
    match item
    case Mark(t) =>
      RunOne(st, t, o);
      RunsMark(st, t, floor, o);
    case Group(_, _, _) => CloserRestores(st, item, o);
  }

  lemma {:induction false} RunsAll(st: State, items: seq<Item>, floor: nat, o: Options)
    requires Inside(st, floor) && forall i :: i in items ==> Balanced(i)
    ensures Inside(Run(st, AllTokens(items), o), floor) && Keeps(st, Run(st, AllTokens(items), o), floor)
    decreases items, 2
  {
    if |items| > 0 {
      RunsItem(st, items[0], floor, o);
      var mid := Run(st, Tokens(items[0]), o);
      RunsAll(mid, items[1..], floor, o);
      RunConcat(st, Tokens(items[0]), AllTokens(items[1..]), o);
    }
  }

  /** Nothing of the program follows the opener on its line, or the option says that nothing counts. */
  predicate LastOnLine(p: Place, o: Options)
  {
    p.index + p.distance == |p.line| || o.shouldIndentAfterParen
  }

  /**
   A closer brings back every stack of its opener exactly, whatever balanced text
   stands between, and one that begins its line is indented to the column its own
   opener recorded.
   */
  lemma {:induction false} CloserRestores(st: State, group: Item, o: Options)
    requires group.Group? && Balanced(group) && Sound(st)
    ensures var end := Run(st, Tokens(group), o);
            end == st.(space := end.space) &&
            (group.leads ==>
               end.space == if !LastOnLine(group.place, o) then group.place.index + st.space - group.place.runInIndent
                            else if |st.columns| > 0 then Top(st.columns) else st.space)
    decreases group, 0
  {
    var open, close := Open(group.place), Close(group.leads);
    var st1 := Step(st, open, o);
    var body := AllTokens(group.items);
    StepKeepsSound(st, open, o);
    RunsAll(st1, group.items, |st.columns|, o);
    var st2 := Run(st1, body, o);
    assert Pop(st1.sizes) == st.sizes;
    assert st1.columns[..|st.columns|] == st.columns;
    assert Pop(st1.parenColumns) == st.parenColumns;
    RunOne(st2, close, o);
    RunConcat(st1, body, [close], o);
    RunOne(st, open, o);
    RunConcat(st, [open], body + [close], o);
  }

  // ---------------------------------------------------------------------
  // Where a statement and its parts end
  // ---------------------------------------------------------------------

  /** No statement is open: what is left on the stack belongs to the text around. */
  predicate BetweenStatements(st: State)
  {
    Sound(st) && st.parenDepth == 0 && |st.columns| == Top(st.sizes)
  }

  /**
   A semicolon ends its statement: whatever balanced text it ends, only the indent of
   the current line is not as it was before, and the next line stands where a line
   stood then.
   */
  lemma {:induction false} SemicolonEndsStatement(st: State, items: seq<Item>, o: Options)
    requires BetweenStatements(st) && forall i :: i in items ==> Balanced(i)
    ensures var toks := AllTokens(items) + [Semicolon];
            var end := Run(st, toks, o);
            end == st.(space := end.space) &&
            Run(st, toks + [Line], o).space == if |st.columns| > 0 then Top(st.columns) else 0
  {
    var toks := AllTokens(items);
    RunsAll(st, items, |st.columns|, o);
    var mid := Run(st, toks, o);
    RunOne(mid, Semicolon, o);
    RunConcat(st, toks, [Semicolon], o);
    assert st.columns[..|st.columns|] == st.columns;
    RunOne(Run(st, toks + [Semicolon], o), Line, o);
    RunConcat(st, toks + [Semicolon], [Line], o);
  }

  /**
   Inside an opener a comma or a semicolon ends a part: of the columns above the
   opener only its own is left, and the next line is aligned to it.
   */
  lemma {:induction false} PartsAlignToTheirOpener(st: State, place: Place, items: seq<Item>, separator: Token, o: Options)
    requires Sound(st) && st.parenDepth >= 0 && (separator.Comma? || separator.Semicolon?)
    requires forall i :: i in items ==> Balanced(i)
    ensures var toks := [Open(place)] + AllTokens(items) + [separator];
            var end := Run(st, toks, o);
            end.columns == st.columns + [Column(st, place, o)] && end.sizes == st.sizes + [|st.columns|] &&
            end.parenDepth == st.parenDepth + 1 && Run(st, toks + [Line], o).space == Column(st, place, o)
  {
    var open, body := Open(place), AllTokens(items);
    var st1 := Step(st, open, o);
    StepKeepsSound(st, open, o);
    RunsAll(st1, items, |st.columns|, o);
    FirstStays(st1, items, |st.columns|, o);
    var mid := Run(st1, body, o);
    RunOne(st, open, o);
    RunConcat(st, [open], body, o);
    RunOne(mid, separator, o);
    RunConcat(st, [open] + body, [separator], o);
    var end := Run(st, [open] + body + [separator], o);
    assert mid.columns[..|st.columns| + 1] == st1.columns;
    RunOne(end, Line, o);
    RunConcat(st, [open] + body + [separator], [Line], o);
  }

  /** In parens the column of the innermost opener stays too. */
  predicate Opened(st: State, floor: nat)
  {
    Inside(st, floor) && st.parenDepth > 0 && |st.columns| > floor
  }

  lemma {:induction false} FirstStays(st: State, items: seq<Item>, floor: nat, o: Options)
    requires Opened(st, floor) && forall i :: i in items ==> Balanced(i)
    ensures var end := Run(st, AllTokens(items), o); Opened(end, floor) && end.columns[..floor + 1] == st.columns[..floor + 1]
    decreases |items|
  {
    if |items| > 0 {
      var mid := Run(st, Tokens(items[0]), o);
      assert items[0] in items;
      OneStays(st, items[0], floor, o);
      FirstStays(mid, items[1..], floor, o);
      RunConcat(st, Tokens(items[0]), AllTokens(items[1..]), o);
    }
  }

  lemma {:induction false} OneStays(st: State, item: Item, floor: nat, o: Options)
    requires Opened(st, floor) && Balanced(item)
    ensures var end := Run(st, Tokens(item), o); Opened(end, floor) && end.columns[..floor + 1] == st.columns[..floor + 1]
  {
    match item
    case Mark(t) => RunOne(st, t, o);
    case Group(_, _, _) => CloserRestores(st, item, o);
  }

  /**
   An opener that ends its line: the next line is indented by the continuation indents from
   the entry or the line around it, or, where that is too far right, by two indents from the line.
   */
  lemma {:induction false} HangsFromBelow(st: State, p: Place, o: Options)
    requires LastOnLine(p, o)
    ensures var column := o.continuationIndent * o.indentLength + (if |st.columns| > 0 then Top(st.columns) else st.space);
            Column(st, p, o) == if column <= o.maxContinuationIndent || p.line[p.index] == '{' then column
                                else 2 * o.indentLength + st.space
  {
  }

  /** Where the text behind an opener stands on its line, tabs included; a brace that begins the line does not count. */
  function TextColumn(st: State, p: Place, o: Options): int
  {
    VisualColumn(p.line, p.index + 1, p.index + p.distance, p.index + 1 + p.tabIncrement, o.indentLength) + st.space
    - if p.index > 0 && p.line[0] == '{' then o.indentLength else 0
  }

  /**
   An opener with text behind it: the next line is aligned to that text, if this is no less
   than the least indent and not too far right (an array initializer may be); never left of
   the entry below, and an array brace outside a statement goes to the margin.
   */
  lemma {:induction false} AlignsToTheText(st: State, p: Place, o: Options)
    requires !LastOnLine(p, o)
    ensures var text, column := TextColumn(st, p, o), Column(st, p, o);
            var low, right := text < p.minIndent, (text > o.maxContinuationIndent && !p.arrayInit);
            var limited := p.minIndent + st.space > o.maxContinuationIndent && !p.arrayInit;
            var wanted := if low then (if limited then 2 * o.indentLength + st.space else p.minIndent + st.space)
                          else if right then 2 * o.indentLength + st.space else text;
            if p.freeArray && p.line[p.index] == '{' then column == 0
            else column >= wanted && (|st.columns| > 0 ==> column >= Top(st.columns)) &&
                 (column == wanted || (|st.columns| > 0 && column == Top(st.columns)))
  {
    TabsReachTheirStops(p.line, p.index + 1, p.index + p.distance, p.tabIncrement, o.indentLength);
  }

  /** An assignment moves its line only if it begins it, on a line that is not indented yet. */
  lemma {:induction false} AssignmentMovesItsLine(st: State, place: Place, plain: bool, o: Options)
    requires Sound(st)
    ensures var end := Step(st, Assign(place, plain), o);
            (plain && place.index == 0 && st.space == 0 ==> end.space == o.indentLength) &&
            (!plain || place.index > 0 || st.space != 0 ==> end.space == st.space) &&
            |end.columns| == |st.columns| + 1 && Top(end.columns) == Column(st.(space := end.space), place, o)
  {
  }

  /** The heights at the open openers rise up to the height of the stack. */
  predicate Nested(st: State)
  {
    Sound(st) && Top(st.sizes) <= |st.columns| && forall i, j :: 0 <= i < j < |st.sizes| ==> st.sizes[i] <= st.sizes[j]
  }

  lemma {:induction false} PurgedAllIsNested(st: State)
    requires Nested(st)
    ensures Nested(PurgedAll(st))
    decreases |st.sizes|
  {
    if |st.columns| > 0 && |st.sizes| > 1 {
      PopKeepsNested(st);
      PurgedAllIsNested(PopLast(st));
    }
  }

  lemma {:induction false} PopKeepsNested(st: State)
    requires Nested(st)
    ensures Nested(PopLast(st)) && |PopLast(st).columns| == Top(st.sizes)
  {
  }

  lemma {:induction false} StepKeepsNested(st: State, t: Token, o: Options)
    requires Nested(st)
    ensures Nested(Step(st, t, o))
  {
    match t
    case Close(_) => PopKeepsNested(st);
    case BlockBrace => PurgedAllIsNested(st);
    case BlockClose(_) => PopKeepsNested(st);
    case _ =>
  }

  /** In every reachable state. */
  lemma {:induction false} RunKeepsNested(st: State, toks: seq<Token>, o: Options)
    requires Nested(st)
    ensures Nested(Run(st, toks, o))
    decreases |toks|
  {
    if |toks| > 0 {
      StepKeepsNested(st, toks[0], o);
      RunKeepsNested(Step(st, toks[0], o), toks[1..], o);
    }
  }

  /**
   A block in the middle of a statement: when its own statements are done, the paren
   depth of the text around it is back, and no column is left.
   */
  lemma {:induction false} BlockRestoresDepth(st: State, items: seq<Item>, leads: bool, o: Options)
    requires Nested(st) && forall i :: i in items ==> Balanced(i)
    ensures var end := Run(st, [BlockBrace] + (AllTokens(items) + [Semicolon, BlockClose(leads)]), o);
            end.parenDepth == st.parenDepth && end.depths == st.depths && end.parenColumns == st.parenColumns && end.columns == [] &&
            end.space == if leads then 0 else Run(st, [BlockBrace] + AllTokens(items), o).space
  {
    var st1 := Step(st, BlockBrace, o);
    PurgedAllIsEmpty(st);
    PurgedAllIsNested(st);
    StepKeepsSound(st, BlockBrace, o);
    BlockBody(st1, items, leads, o);
    RunOne(st, BlockBrace, o);
    RunConcat(st, [BlockBrace], AllTokens(items) + [Semicolon, BlockClose(leads)], o);
    RunConcat(st, [BlockBrace], AllTokens(items), o);
    assert Pop(st1.depths) == st.depths;
  }

  lemma {:induction false} BlockBody(st: State, items: seq<Item>, leads: bool, o: Options)
    requires Nested(st) && st.columns == [] && st.parenDepth == 0 && |st.depths| > 0 && forall i :: i in items ==> Balanced(i)
    ensures var end := Run(st, AllTokens(items) + [Semicolon, BlockClose(leads)], o);
            end.parenDepth == Top(st.depths) && end.depths == Pop(st.depths) && end.parenColumns == st.parenColumns && end.columns == [] &&
            end.space == if leads then 0 else Run(st, AllTokens(items), o).space
  {
    var body := AllTokens(items);
    RunsAll(st, items, 0, o);
    var mid := Run(st, body, o);
    RunOne(mid, Semicolon, o);
    RunConcat(mid, [Semicolon], [BlockClose(leads)], o);
    RunOne(Step(mid, Semicolon, o), BlockClose(leads), o);
    assert [Semicolon] + [BlockClose(leads)] == [Semicolon, BlockClose(leads)];
    RunConcat(st, body, [Semicolon, BlockClose(leads)], o);
  }

  // ---------------------------------------------------------------------
  // The stacks of the beautifier
  // ---------------------------------------------------------------------

  class IndentStacks {
    const options: Options
    var continuationIndentStack: seq<int>
    var continuationIndentStackSizeStack: seq<int>
    var parenIndentStack: seq<int>
    var parenDepth: int
    var squareBracketDepthStack: seq<int>
    var spaceIndentCount: int

    ghost function View(): State
      reads this
    {
      State(continuationIndentStack, continuationIndentStackSizeStack, parenIndentStack, parenDepth, squareBracketDepthStack,
            spaceIndentCount)
    }

    constructor (options: Options)
      ensures View() == INITIAL && this.options == options
    {
      this.options := options;
      continuationIndentStack, continuationIndentStackSizeStack, parenIndentStack := [], [0], [];
      parenDepth, squareBracketDepthStack, spaceIndentCount := 0, [], 0;
    }

    method PopLastContinuationIndent()
      requires Sound(View())
      modifies this`continuationIndentStack, this`continuationIndentStackSizeStack
      ensures View() == PopLast(old(View()))
    {
      var previousIndentStackSize := Top(continuationIndentStackSizeStack);
      if |continuationIndentStackSizeStack| > 1 {
        continuationIndentStackSizeStack := Pop(continuationIndentStackSizeStack);
      }
      PopColumns(previousIndentStackSize);
    }

    method PopColumns(size: int)
      requires size >= 0
      modifies this`continuationIndentStack
      ensures continuationIndentStack == Truncated(old(continuationIndentStack), size)
    {
      while size < |continuationIndentStack|
        invariant continuationIndentStack <= old(continuationIndentStack)
        invariant |continuationIndentStack| >= size || continuationIndentStack == old(continuationIndentStack)
      {
        continuationIndentStack := Pop(continuationIndentStack);
      }
    }

    /** The loop at a block brace ends, with no column left, from any sound state. */
    method PurgeAll()
      requires Sound(View())
      modifies this`continuationIndentStack, this`continuationIndentStackSizeStack
      ensures View() == PurgedAll(old(View())) && continuationIndentStack == []
    {
      PurgedAllIsEmpty(View());
      while |continuationIndentStack| > 0
        invariant Sound(View()) && PurgedAll(View()) == PurgedAll(old(View()))
        decreases |continuationIndentStackSizeStack|, |continuationIndentStack|
      {
        PopLastContinuationIndent();
      }
    }

    method RegisterContinuationIndent(p: Place, updateParenStack: bool)
      modifies this`continuationIndentStack, this`parenIndentStack
      ensures continuationIndentStack == old(continuationIndentStack) + [Column(old(View()), p, options)]
      ensures parenIndentStack ==
              old(parenIndentStack) + if updateParenStack then [ParenColumn(old(View()), p, options)] else []
    {
      if p.distance == |p.line| - p.index || options.shouldIndentAfterParen {
        var previousIndent := spaceIndentCount;
        if |continuationIndentStack| > 0 {
          previousIndent := Top(continuationIndentStack);
        }
        var currIndent := options.continuationIndent * options.indentLength + previousIndent;
        if currIndent > options.maxContinuationIndent && p.line[p.index] != '{' {
          currIndent := options.indentLength * 2 + spaceIndentCount;
        }
        continuationIndentStack := continuationIndentStack + [currIndent];
        if updateParenStack {
          parenIndentStack := parenIndentStack + [previousIndent];
        }
        return;
      }
      if updateParenStack {
        parenIndentStack := parenIndentStack + [p.index + spaceIndentCount - p.runInIndent];
      }
      var tabIncrement := FollowingTabs(p);
      var column := p.index + p.distance + spaceIndentCount + tabIncrement;
      if p.index > 0 && p.line[0] == '{' {
        column := column - options.indentLength;
      }
      if column < p.minIndent {
        column := p.minIndent + spaceIndentCount;
      }
      if column > options.maxContinuationIndent && !p.arrayInit {
        column := options.indentLength * 2 + spaceIndentCount;
      }
      if |continuationIndentStack| > 0 && column < Top(continuationIndentStack) {
        column := Top(continuationIndentStack);
      }
      if p.freeArray && p.line[p.index] == '{' {
        column := 0;
      }
      continuationIndentStack := continuationIndentStack + [column];
    }

    method FollowingTabs(p: Place) returns (tabIncrement: nat)
      ensures tabIncrement == TabIncrement(p.line, p.index + 1, p.index + p.distance, p.tabIncrement, options.indentLength)
      ensures p.index + p.distance + tabIncrement ==
              VisualColumn(p.line, p.index + 1, p.index + p.distance, p.index + 1 + p.tabIncrement, options.indentLength)
    {
      tabIncrement := p.tabIncrement;
      var j, end := p.index + 1, p.index + p.distance;
      while j < end
        invariant j <= end
        invariant TabIncrement(p.line, j, end, tabIncrement, options.indentLength) ==
                  TabIncrement(p.line, p.index + 1, end, p.tabIncrement, options.indentLength)
      {
        if p.line[j] == '\t' {
          tabIncrement := tabIncrement + options.indentLength - 1 - (tabIncrement + j) % options.indentLength;
        }
        j := j + 1;
      }
      TabsReachTheirStops(p.line, p.index + 1, end, p.tabIncrement, options.indentLength);
    }

    method OpenBracket(p: Place)
      requires Sound(View())
      modifies this
      ensures View() == OpenOne(old(View()), p, options)
    {
      parenDepth := parenDepth + 1;
      continuationIndentStackSizeStack := continuationIndentStackSizeStack + [|continuationIndentStack|];
      RegisterContinuationIndent(p, true);
    }

    method CloseBracket(leads: bool)
      requires Sound(View())
      modifies this
      ensures View() == CloseOne(old(View()), leads)
    {
      parenDepth := parenDepth - 1;
      PopLastContinuationIndent();
      if |parenIndentStack| > 0 {
        var poppedIndent := Top(parenIndentStack);
        parenIndentStack := Pop(parenIndentStack);
        if leads {
          spaceIndentCount := poppedIndent;
        }
      }
    }

    method OpenBlock()
      requires Sound(View())
      modifies this
      ensures View() == Step(old(View()), BlockBrace, options)
    {
      var depth := parenDepth;
      if |continuationIndentStack| > 0 {
        PurgeAll();
        spaceIndentCount := 0;
      }
      squareBracketDepthStack := squareBracketDepthStack + [depth];
      parenDepth := 0;
    }

    method CloseBlock(leads: bool)
      requires Sound(View())
      modifies this
      ensures View() == Step(old(View()), BlockClose(leads), options)
    {
      PopLastContinuationIndent();
      if |squareBracketDepthStack| > 0 {
        parenDepth := Top(squareBracketDepthStack);
        squareBracketDepthStack := Pop(squareBracketDepthStack);
      }
      if leads {
        spaceIndentCount := 0;
      }
    }

    method EndPart(t: Token)
      requires Sound(View()) && (t.Comma? || t.Semicolon?)
      modifies this`continuationIndentStack
      ensures View() == Step(old(View()), t, options)
    {
      if t.Semicolon? || parenDepth > 0 {
        PopColumns(Top(continuationIndentStackSizeStack) + (if parenDepth > 0 then 1 else 0));
      }
      if t.Comma? && parenDepth == 0 && t.continues {
        continuationIndentStack := continuationIndentStack + [t.column];
      }
    }

    method Parse(t: Token)
      requires Sound(View())
      modifies this
      ensures Sound(View()) && View() == Step(old(View()), t, options)
    {
      StepKeepsSound(View(), t, options);
      match t {
        case Line =>
          spaceIndentCount := 0;
          if |continuationIndentStack| > 0 {
            spaceIndentCount := Top(continuationIndentStack);
          }
        case Open(place) => OpenBracket(place);
        case Close(leads) => CloseBracket(leads);
        case Assign(place, plain) =>
          if plain && place.index == 0 && spaceIndentCount == 0 {
            spaceIndentCount := spaceIndentCount + options.indentLength;
          }
          RegisterContinuationIndent(place, false);
        case Align(column) =>
          continuationIndentStack := continuationIndentStack + [column];
        case BlockBrace => OpenBlock();
        case BlockClose(leads) => CloseBlock(leads);
        case _ => EndPart(t);
      }
    }

    /** A whole text of tokens. */
    method ParseAll(toks: seq<Token>)
      requires Sound(View())
      modifies this
      ensures Sound(View()) && View() == Run(old(View()), toks, options)
    {
      var i := 0;
      while i < |toks|
        invariant 0 <= i <= |toks| && Sound(View())
        invariant Run(View(), toks[i..], options) == Run(old(View()), toks, options)
      {
        assert toks[i..][1..] == toks[i + 1..];
        Parse(toks[i]);
        i := i + 1;
      }
    }
  }
}
