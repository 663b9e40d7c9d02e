/**
 Clauses of a switch that have a line at the wrong depth, whatever stands around them.
 */
module MisplacedClauses {
  import opened Stacks
  import opened SwitchTracker
  import opened SwitchLayout

  // ---------------------------------------------------------------------
  // A line inside a text
  // ---------------------------------------------------------------------

  /** The line that the notes make. */
  function LineOf(line: Line, notes: seq<Note>): Line
    decreases |notes|
  {
    if |notes| == 0 then line else LineOf(Next(line, notes[0]), notes[1..])
  }

  lemma {:induction false} LineOfTwo(line: Line, n1: Note, n2: Note)
    ensures LineOf(line, [n1, n2]) == Next(Next(line, n1), n2)
  {
    assert [n1, n2][1..] == [n2] && [n2][1..] == [];
    assert LineOf(Next(line, n1), [n2]) == LineOf(Next(Next(line, n1), n2), []);
  }

  lemma {:induction false} LineOfSum(line: Line, a: seq<Note>, b: seq<Note>)
    ensures LineOf(line, a + b) == LineOf(LineOf(line, a), b)
    decreases |a|
  {
    if |a| == 0 {
      assert a + b == b;
    } else {
      assert (a + b)[1..] == a[1..] + b;
      LineOfSum(Next(line, a[0]), a[1..], b);
    }
  }

  predicate OneLineOnly(notes: seq<Note>)
  {
    forall i :: 0 <= i < |notes| ==> !notes[i].tok.LineStart?
  }

  /** Behind `n` notes the lines that are left are the same. */
  lemma {:induction false} LinesFrom(st: State, line: Line, depth: nat, notes: seq<Note>, n: nat, end: State, endLine: Line)
      returns (st': State, line': Line, depth': nat, k: nat)
    requires Shows(st, line, depth) && Follows(st, line, notes, end, endLine) && n <= |notes|
    ensures Shows(st', line', depth') && Follows(st', line', notes[n..], end, endLine)
    ensures n > 0 && notes[n - 1].tok.LineStart? ==> line' == EMPTY_LINE
    ensures n == 0 ==> line' == line
    ensures var amounts, depths := LineAmounts(st, Tokens(notes)), LineDepths(line, depth, notes);
            k < |amounts| && k < |depths| &&
            amounts[k..] == LineAmounts(st', Tokens(notes[n..])) && depths[k..] == LineDepths(line', depth', notes[n..])
    decreases n
  {
    if n == 0 {
      st', line', depth', k := st, line, depth, 0;
      assert notes[0..] == notes;
    } else {
      var k1;
      st', line', depth', k1 := LinesFrom(Step(st, notes[0].tok), Next(line, notes[0]), notes[0].depth, notes[1..], n - 1, end, endLine);
      assert notes[1..][n - 1..] == notes[n..];
      k := if notes[0].tok.LineStart? then k1 + 1 else k1;
      OneNoteLess(st, line, depth, notes, k1);
    }
  }

  lemma {:induction false} OneNoteLess(st: State, line: Line, depth: nat, notes: seq<Note>, k: nat)
    requires |notes| > 0
    ensures var amounts, depths := LineAmounts(st, Tokens(notes)), LineDepths(line, depth, notes);
            var amounts', depths' := LineAmounts(Step(st, notes[0].tok), Tokens(notes[1..])),
                                     LineDepths(Next(line, notes[0]), notes[0].depth, notes[1..]);
            var k' := if notes[0].tok.LineStart? then k + 1 else k;
            (k < |amounts'| ==> k' < |amounts| && amounts[k'..] == amounts'[k..]) &&
            (k < |depths'| ==> k' < |depths| && depths[k'..] == depths'[k..])
  {
    assert Tokens(notes)[1..] == Tokens(notes[1..]);
    var amounts', depths' := LineAmounts(Step(st, notes[0].tok), Tokens(notes[1..])),
                             LineDepths(Next(line, notes[0]), notes[0].depth, notes[1..]);
    Shift(Amount(st), amounts', k);
    Shift(Due(line, depth), depths', k);
  }

  lemma {:induction false} Shift(x: int, s: seq<int>, k: nat)
    ensures [] + s == s && (k < |s| ==> ([x] + s)[k + 1..] == s[k..])
  {
  }

  lemma {:induction false} FirstAmount(st: State, line: Line, depth: nat, text: seq<Note>, rest: seq<Note>, end: State, endLine: Line)
    requires Shows(st, line, depth) && Follows(st, line, text + rest, end, endLine)
    requires OneLineOnly(text) && |rest| > 0 && rest[0].tok.LineStart?
    ensures var last := if |text| == 0 then depth else Top(text).depth;
            LineAmounts(st, Tokens(text + rest))[0] == Taken(LineOf(line, text), last) &&
            LineDepths(line, depth, text + rest)[0] == Due(LineOf(line, text), last)
    decreases |text|
  {
    AmountOfLine(st, line, depth);
    if |text| == 0 {
      assert text + rest == rest;
    } else {
      var st', line' := Step(st, text[0].tok), Next(line, text[0]);
      assert (text + rest)[0] == text[0] && (text + rest)[1..] == text[1..] + rest;
      assert Tokens(text + rest)[1..] == Tokens(text[1..] + rest);
      FirstAmount(st', line', text[0].depth, text[1..], rest, end, endLine);
      assert [] + LineAmounts(st', Tokens(text[1..] + rest)) == LineAmounts(st', Tokens(text[1..] + rest));
      assert [] + LineDepths(line', text[0].depth, text[1..] + rest) == LineDepths(line', text[0].depth, text[1..] + rest);
    }
  }

  ghost predicate Inside(part: seq<Note>, whole: seq<Note>)
  {
    exists i :: InsideAt(part, whole, i)
  }

  predicate InsideAt(part: seq<Note>, whole: seq<Note>, i: int)
  {
    0 <= i && i + |part| <= |whole| && whole[i..i + |part|] == part
  }

  lemma {:induction false} InsideSum(part: seq<Note>, a: seq<Note>, b: seq<Note>)
    requires Inside(part, a) || Inside(part, b)
    ensures Inside(part, a + b)
  {
    if Inside(part, a) {
      var i :| InsideAt(part, a, i);
      assert (a + b)[i..i + |part|] == a[i..i + |part|];
      assert InsideAt(part, a + b, i);
    } else {
      var i :| InsideAt(part, b, i);
      assert (a + b)[|a| + i..|a| + i + |part|] == b[i..i + |part|];
      assert InsideAt(part, a + b, |a| + i);
    }
  }

  lemma {:induction false} InsideItself(part: seq<Note>)
    ensures Inside(part, part)
  {
    assert InsideAt(part, part, 0);
  }

  /** A part that ends one text and begins the next. */
  lemma {:induction false} Straddles(part: seq<Note>, a: seq<Note>, start: seq<Note>, head: seq<Note>, b: seq<Note>)
    requires start + head == part
    ensures Inside(part, (a + start) + (head + b))
  {
    assert (a + start) + (head + b) == a + (part + b);
    InsideItself(part);
    InsideSum(part, part, b);
    InsideSum(part, a, part + b);
  }

  lemma {:induction false} StraddlesWithin(part: seq<Note>, pre: seq<Note>, a: seq<Note>, start: seq<Note>,
                                           head: seq<Note>, b: seq<Note>, c: seq<Note>, d: seq<Note>)
    requires start + head == part
    ensures Inside(part, pre + ((a + start) + (((head + b) + c) + d)))
  {
    assert ((head + b) + c) + d == head + (b + (c + d));
    Straddles(part, a, start, head, b + (c + d));
    InsideSum(part, pre, (a + start) + (head + (b + (c + d))));
  }

  /** A line of the text is unindented by `amount`, and is to be unindented by `due`. */
  ghost predicate HasLine(items: seq<Item>, amount: nat, due: nat)
  {
    var notes := AnnotateAll(items, 0, false);
    var amounts, depths := LineAmounts(BeginLine(INITIAL, false), Tokens(notes)), LineDepths(EMPTY_LINE, 0, notes);
    exists k :: 0 <= k < |amounts| && k < |depths| && amounts[k] == amount && depths[k] == due
  }

  lemma {:induction false} PartSplits(part: seq<Note>, whole: seq<Note>, i: nat, start: Note, text: seq<Note>, stop: Note)
    requires part == [start] + text + [stop] && InsideAt(part, whole, i)
    ensures i + 1 + |text| < |whole| && whole[i] == start
    ensures whole[i + 1 + |text|] == stop && whole[i + 1..] == text + whole[i + 1 + |text|..]
  {
    assert whole[i..i + |part|] == part;
    assert whole[i] == part[0] && whole[i + 1 + |text|] == part[1 + |text|];
    forall k | 0 <= k < |text| ensures whole[i + 1 + k] == text[k] {
      assert whole[i..i + |part|][1 + k] == part[1 + k];
    }
  }

  /** A line that stands in the text, between two line breaks. */
  lemma {:induction false} LineWithin(start: Note, text: seq<Note>, stop: Note, items: seq<Item>)
    requires Inside([start] + text + [stop], AnnotateAll(items, 0, false))
    requires start.tok.LineStart? && |text| > 0 && OneLineOnly(text) && stop.tok.LineStart?
    ensures var line := LineOf(EMPTY_LINE, text);
            HasLine(items, Taken(line, Top(text).depth), Due(line, Top(text).depth))
  {
    var notes, part := AnnotateAll(items, 0, false), [start] + text + [stop];
    var i :| InsideAt(part, notes, i);
    var st0 := BeginLine(INITIAL, false);
    var end, endLine := RunsAll(st0, EMPTY_LINE, items, 0);
    var st, line, depth, k := LinesFrom(st0, EMPTY_LINE, 0, notes, i + 1, end, endLine);
    var rest := notes[i + 1 + |text|..];
    PartSplits(part, notes, i, start, text, stop);
    FirstAmount(st, line, depth, text, rest, end, endLine);
    assert LineAmounts(st0, Tokens(notes))[k..][0] == LineAmounts(st0, Tokens(notes))[k];
  }

  // ---------------------------------------------------------------------
  // A clause inside a text
  // ---------------------------------------------------------------------

  lemma {:induction false} AllConcat(a: seq<Item>, b: seq<Item>, depth: nat, between: bool)
    ensures AnnotateAll(a + b, depth, between) == AnnotateAll(a, depth, between) + AnnotateAll(b, depth, between)
    decreases |a|
  {
    if |a| == 0 {
      assert a + b == b;
    } else {
      assert (a + b)[1..] == a[1..] + b;
      AllConcat(a[1..], b, depth, between);
    }
  }

  lemma {:induction false} AllOne(item: Item, depth: nat, between: bool)
    ensures AnnotateAll([item], depth, between) == Annotate(item, depth, between)
  {
    assert [item][1..] == [];
  }

  lemma {:induction false} ItemInside(part: seq<Note>, items: seq<Item>, i: nat, depth: nat, between: bool)
    requires i < |items| && Inside(part, Annotate(items[i], depth, between))
    ensures Inside(part, AnnotateAll(items, depth, between))
    decreases i
  {
    if i > 0 {
      ItemInside(part, items[1..], i - 1, depth, between);
    }
    InsideSum(part, Annotate(items[0], depth, between), AnnotateAll(items[1..], depth, between));
  }

  lemma {:induction false} ClauseInside(part: seq<Note>, clauses: seq<Clause>, i: nat, depth: nat)
    requires i < |clauses| && Inside(part, AnnotateClause(clauses[i], depth))
    ensures Inside(part, AnnotateClauses(clauses, depth))
    decreases i
  {
    if i > 0 {
      ClauseInside(part, clauses[1..], i - 1, depth);
    }
    InsideSum(part, AnnotateClause(clauses[0], depth), AnnotateClauses(clauses[1..], depth));
  }

  lemma {:induction false} SwitchInside(part: seq<Note>, item: Item, i: nat, depth: nat, between: bool)
    requires item.SwitchStmt? && i < |item.clauses| && Inside(part, AnnotateClause(item.clauses[i], depth))
    ensures Inside(part, Annotate(item, depth, between))
  {
    var clauses, last := AnnotateClauses(item.clauses, depth), [SwitchEnd(item.clauses, item.last, depth)];
    ClauseInside(part, item.clauses, i, depth);
    InsideSum(part, clauses, last);
    InsideSum(part, AnnotateAll(item.lead, depth, false), clauses + last);
    InsideSum(part, SwitchHead(item.gaps, depth), AnnotateAll(item.lead, depth, false) + (clauses + last));
  }

  // ---------------------------------------------------------------------
  // Three misplaced lines
  // ---------------------------------------------------------------------

  /** Clause `c` of a switch of the text. */
  predicate HasClause(items: seq<Item>, i: nat, j: nat, c: Clause)
  {
    i < |items| && items[i].SwitchStmt? && j < |items[i].clauses| && items[i].clauses[j] == c
  }

  lemma {:induction false} InText(part: seq<Note>, items: seq<Item>, i: nat, j: nat, c: Clause, depth: nat)
    requires HasClause(items, i, j, c) && Inside(part, AnnotateClause(c, depth))
    ensures Inside(part, AnnotateAll(items, depth, false))
  {
    SwitchInside(part, items[i], j, depth, false);
    ItemInside(part, items, i, depth, false);
  }

  function BlockNote(depth: nat, between: bool): Note
  {
    Note(BlockComment, depth, depth, between, false)
  }

  /** The notes of a block comment at the end of a line. */
  lemma {:induction false} RemarkNotes(rest: seq<Item>, depth: nat, between: bool)
    ensures AnnotateAll([Space(BlockRemark), Space(NewLine)] + rest, depth, between)
            == [BlockNote(depth, between), N(LineStart(false), depth)] + AnnotateAll(rest, depth, between)
  {
    var two := [Space(BlockRemark), Space(NewLine)];
    AllConcat(two, rest, depth, between);
    assert two[1..] == [Space(NewLine)];
    AllOne(Space(NewLine), depth, between);
    assert AnnotateAll(two, depth, between) == [BlockNote(depth, between)] + [N(LineStart(false), depth)];
  }

  /** A clause whose block ends on the line of a comment. */
  function CommentBehindBlock(opening: Opening, inner: seq<Item>, closeFirst: bool, rest: seq<Item>): Clause
  {
    Braced(opening, inner + [Space(NewLine)], closeFirst, [Space(BlockRemark), Space(NewLine)] + rest)
  }

  /** Behind the opening of a block. */
  lemma {:induction false} InClauseBody(part: seq<Note>, c: Clause, depth: nat)
    requires c.Braced?
    requires var d := ClauseDepth(c, depth);
             Inside(part, AnnotateAll(c.inner, d, false) + ([N(Close(c.closeFirst), d)] + AnnotateAll(c.after, d, d > depth)))
    ensures Inside(part, AnnotateClause(c, depth))
  {
    var d := ClauseDepth(c, depth);
    var body := AnnotateAll(c.inner, d, false) + ([N(Close(c.closeFirst), d)] + AnnotateAll(c.after, d, d > depth));
    InsideSum(part, BodiesOf(c.opening, d), body);
    InsideSum(part, OpeningNotes(c.opening, depth), BodiesOf(c.opening, d) + body);
  }

  lemma {:induction false} BlockEndInside(opening: Opening, inner: seq<Item>, closeFirst: bool, rest: seq<Item>)
    requires !opening.OneLine?
    ensures Inside([N(LineStart(false), 1)] + [N(Close(closeFirst), 1), BlockNote(1, true)] + [N(LineStart(false), 1)],
                   AnnotateClause(CommentBehindBlock(opening, inner, closeFirst, rest), 0))
  {
    var start, close := N(LineStart(false), 1), N(Close(closeFirst), 1);
    var part := [start] + [close, BlockNote(1, true)] + [start];
    var a, after, r := AnnotateAll(inner, 1, false), [Space(BlockRemark), Space(NewLine)] + rest, AnnotateAll(rest, 1, true);
    AllConcat(inner, [Space(NewLine)], 1, false);
    AllOne(Space(NewLine), 1, false);
    RemarkNotes(rest, 1, true);
    var head := [close, BlockNote(1, true), start];
    assert [close] + ([BlockNote(1, true), start] + r) == head + r;
    assert [start] + head == part;
    Straddles(part, a, [start], head, r);
    InClauseBody(part, CommentBehindBlock(opening, inner, closeFirst, rest), 0);
  }

  /** A block comment behind the closing brace of a clause takes the line of the brace one indent to the right. */
  lemma {:induction false} CommentMovesRight(items: seq<Item>, i: nat, j: nat, opening: Opening, inner: seq<Item>, closeFirst: bool, rest: seq<Item>)
    requires !opening.OneLine? && HasClause(items, i, j, CommentBehindBlock(opening, inner, closeFirst, rest))
    ensures HasLine(items, 0, 1)
  {
    var start, text := N(LineStart(false), 1), [N(Close(closeFirst), 1), BlockNote(1, true)];
    BlockEndInside(opening, inner, closeFirst, rest);
    InText([start] + text + [start], items, i, j, CommentBehindBlock(opening, inner, closeFirst, rest), 0);
    LineOfTwo(EMPTY_LINE, text[0], text[1]);
    assert LineOf(EMPTY_LINE, text) == Line(Some(1), None, true);
    LineWithin(start, text, start, items);
  }

  /** An empty switch, closed on its line. */
  const EMPTY_SWITCH: Item := SwitchStmt([], [], [], false)

  function EmptySwitchNotes(depth: nat): seq<Note>
  {
    [N(Switch, depth), N(Text, depth), N(Open, depth), Note(Close(false), depth, depth, false, true)]
  }

  lemma {:induction false} EmptySwitchIs(depth: nat, between: bool)
    ensures Annotate(EMPTY_SWITCH, depth, between) == EmptySwitchNotes(depth)
  {
    assert SwitchHead([], depth) == [N(Switch, depth), N(Text, depth), N(Open, depth)];
    assert AnnotateAll([], depth, false) == [] && AnnotateClauses([], depth) == [];
  }

  /** A clause of an inner switch that has, behind its block, an empty switch and a comment on one line. */
  function CommentBehindSwitch(opening: Opening, inner: seq<Item>, closeFirst: bool, rest: seq<Item>): Clause
  {
    Braced(opening, inner, closeFirst, [Space(NewLine), EMPTY_SWITCH] + ([Space(BlockRemark), Space(NewLine)] + rest))
  }

  lemma {:induction false} SwitchEndInside(opening: Opening, inner: seq<Item>, closeFirst: bool, rest: seq<Item>, depth: nat)
    requires !opening.OneLine?
    ensures var start := N(LineStart(false), depth + 1);
            Inside([start] + (EmptySwitchNotes(depth + 1) + [BlockNote(depth + 1, true)]) + [start],
                   AnnotateClause(CommentBehindSwitch(opening, inner, closeFirst, rest), depth))
  {
    var d := depth + 1;
    var start := N(LineStart(false), d);
    var part := [start] + (EmptySwitchNotes(d) + [BlockNote(d, true)]) + [start];
    var two, r := [Space(NewLine), EMPTY_SWITCH], AnnotateAll(rest, d, true);
    AllConcat(two, [Space(BlockRemark), Space(NewLine)] + rest, d, true);
    RemarkNotes(rest, d, true);
    assert two[1..] == [EMPTY_SWITCH];
    AllOne(EMPTY_SWITCH, d, true);
    EmptySwitchIs(d, true);
    assert AnnotateAll(two, d, true) == [start] + EmptySwitchNotes(d);
    assert [start] + EmptySwitchNotes(d) + ([BlockNote(d, true), start] + r) == part + r;
    InsideItself(part);
    InsideSum(part, part, r);
    AfterInside(part, CommentBehindSwitch(opening, inner, closeFirst, rest), depth);
  }

  lemma {:induction false} AfterInside(part: seq<Note>, c: Clause, depth: nat)
    requires c.Braced? && !c.opening.OneLine? && Inside(part, AnnotateAll(c.after, depth + 1, true))
    ensures Inside(part, AnnotateClause(c, depth))
  {
    var close, inner, after := [N(Close(c.closeFirst), depth + 1)], AnnotateAll(c.inner, depth + 1, false), AnnotateAll(c.after, depth + 1, true);
    InsideSum(part, close, after);
    InsideSum(part, inner, close + after);
    InClauseBody(part, c, depth);
  }

  lemma {:induction false} InnerInside(part: seq<Note>, c: Clause, depth: nat)
    requires c.Braced? && Inside(part, AnnotateAll(c.inner, ClauseDepth(c, depth), false))
    ensures Inside(part, AnnotateClause(c, depth))
  {
    var d := ClauseDepth(c, depth);
    var rest := [N(Close(c.closeFirst), d)] + AnnotateAll(c.after, d, d > depth);
    InsideSum(part, AnnotateAll(c.inner, d, false), rest);
    InClauseBody(part, c, depth);
  }

  /**
   Two unindented clauses deep, a comment behind a switch that ends on its line takes
   the line one indent to the left: it is settled, and the comment adds to that.
   */
  lemma {:induction false} CommentMovesLeft(items: seq<Item>, i: nat, j: nat, c: Clause, k: nat, m: nat,
                                            opening: Opening, inner: seq<Item>, closeFirst: bool, rest: seq<Item>)
    requires HasClause(items, i, j, c) && c.Braced? && !c.opening.OneLine? && !opening.OneLine?
    requires HasClause(c.inner, k, m, CommentBehindSwitch(opening, inner, closeFirst, rest))
    ensures HasLine(items, 3, 2)
  {
    var start, text := N(LineStart(false), 2), EmptySwitchNotes(2) + [BlockNote(2, true)];
    SwitchEndInside(opening, inner, closeFirst, rest, 1);
    InText([start] + text + [start], c.inner, k, m, CommentBehindSwitch(opening, inner, closeFirst, rest), 1);
    InnerInside([start] + text + [start], c, 0);
    InText([start] + text + [start], items, i, j, c, 0);
    SettledLine(2);
    LineWithin(start, text, start, items);
  }

  lemma {:induction false} SettledLine(depth: nat)
    ensures LineOf(EMPTY_LINE, EmptySwitchNotes(depth) + [BlockNote(depth, true)]) == Line(Some(depth), Some(depth), true)
  {
    var t := EmptySwitchNotes(depth);
    var remark := BlockNote(depth, true);
    LineOfTwo(EMPTY_LINE, t[0], t[1]);
    LineOfSum(EMPTY_LINE, [t[0], t[1]], [t[2], t[3]] + [remark]);
    LineOfTwo(LineOf(EMPTY_LINE, [t[0], t[1]]), t[2], t[3]);
    LineOfSum(LineOf(EMPTY_LINE, [t[0], t[1]]), [t[2], t[3]], [remark]);
    assert t + [remark] == [t[0], t[1]] + ([t[2], t[3]] + [remark]);
    assert [remark][1..] == [];
  }

  /** A label with a comment between its colon and its brace: the brace takes the line of the label one indent to the left. */
  lemma {:induction false} CommentBeforeBrace(items: seq<Item>, i: nat, gaps: seq<Gap>, lead: seq<Item>, inner: seq<Item>,
                                              closeFirst: bool, after: seq<Item>, clauses: seq<Clause>, last: bool)
    requires i < |items|
    requires items[i] == SwitchStmt(gaps, lead + [Space(NewLine)],
                                    [Braced(Apart([BlockRemark]), [Space(NewLine)] + inner, closeFirst, after)] + clauses, last)
    ensures HasLine(items, 1, 0)
  {
    var start, stop := N(LineStart(false), 0), N(LineStart(false), 1);
    var text := [N(Label(Nothing), 0), BlockNote(0, false), N(Open, 1)];
    LabelInside(items[i], gaps, lead, inner, closeFirst, after, clauses, last);
    ItemInside([start] + text + [stop], items, i, 0, false);
    assert text[1..] == [text[1], text[2]];
    LineOfTwo(Next(EMPTY_LINE, text[0]), text[1], text[2]);
    assert LineOf(EMPTY_LINE, text) == Line(Some(0), None, false);
    LineWithin(start, text, stop, items);
  }

  lemma {:induction false} LabelInside(item: Item, gaps: seq<Gap>, lead: seq<Item>, inner: seq<Item>,
                                       closeFirst: bool, after: seq<Item>, clauses: seq<Clause>, last: bool)
    requires item == SwitchStmt(gaps, lead + [Space(NewLine)],
                                [Braced(Apart([BlockRemark]), [Space(NewLine)] + inner, closeFirst, after)] + clauses, last)
    ensures Inside([N(LineStart(false), 0)] + [N(Label(Nothing), 0), BlockNote(0, false), N(Open, 1)] + [N(LineStart(false), 1)],
                   Annotate(item, 0, false))
  {
    var start, head := [N(LineStart(false), 0)], [N(Label(Nothing), 0), BlockNote(0, false), N(Open, 1), N(LineStart(false), 1)];
    var part := start + [N(Label(Nothing), 0), BlockNote(0, false), N(Open, 1)] + [N(LineStart(false), 1)];
    var r := AnnotateAll(inner, 1, false) + ([N(Close(closeFirst), 1)] + AnnotateAll(after, 1, true));
    var more, end, l := AnnotateClauses(clauses, 0), [SwitchEnd(item.clauses, last, 0)], AnnotateAll(lead, 0, false);
    var c := Braced(Apart([BlockRemark]), [Space(NewLine)] + inner, closeFirst, after);
    ApartNotes(inner, closeFirst, after);
    AllConcat(lead, [Space(NewLine)], 0, false);
    AllOne(Space(NewLine), 0, false);
    FirstClause(item, c, clauses, 0);
    assert start + head == part;
    StraddlesWithin(part, SwitchHead(gaps, 0), l, start, head, r, more, end);
  }

  lemma {:induction false} FirstClause(item: Item, c: Clause, clauses: seq<Clause>, depth: nat)
    requires item.SwitchStmt? && item.clauses == [c] + clauses
    ensures Annotate(item, depth, false)
            == SwitchHead(item.gaps, depth)
               + (AnnotateAll(item.lead, depth, false)
                  + ((AnnotateClause(c, depth) + AnnotateClauses(clauses, depth)) + [SwitchEnd(item.clauses, item.last, depth)]))
  {
    assert item.clauses[1..] == clauses;
  }

  lemma {:induction false} ApartNotes(inner: seq<Item>, closeFirst: bool, after: seq<Item>)
    ensures AnnotateClause(Braced(Apart([BlockRemark]), [Space(NewLine)] + inner, closeFirst, after), 0)
            == [N(Label(Nothing), 0), BlockNote(0, false), N(Open, 1), N(LineStart(false), 1)]
               + (AnnotateAll(inner, 1, false) + ([N(Close(closeFirst), 1)] + AnnotateAll(after, 1, true)))
  {
    assert [BlockRemark][1..] == [];
    assert AllGaps([BlockRemark], 0, false) == [BlockNote(0, false)];
    AllConcat([Space(NewLine)], inner, 1, false);
    AllOne(Space(NewLine), 1, false);
  }
}
