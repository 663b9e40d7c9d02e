/**
 Structured text for the switch tracking of ASEnhancer: each line against the
 number of braced clauses around its first token.
 */
module SwitchLayout {
  import opened Stacks
  import opened SwitchTracker

  // ---------------------------------------------------------------------
  // Structured text
  // ---------------------------------------------------------------------

  /** A line break, a comment to the end of the line (`own`: on a line of its own), or a block comment or part of one. */
  datatype Gap = NewLine | LineRemark(own: bool) | BlockRemark

  /** Braces and switches, whose clauses may have a braced block of their own, and comments anywhere. */
  datatype Item =
    | Words
    | Space(gap: Gap)
    | Block(body: seq<Item>, first: bool)
    | SwitchStmt(gaps: seq<Gap>, lead: seq<Item>, clauses: seq<Clause>, last: bool)

  /** Text on the line of a brace. */
  datatype Piece = Word | Remark | Braces(pieces: seq<Piece>)

  /**
   The block of a clause opens right behind its label and is closed on that line
   (`OneLine`) or not (`Attached`, with what else stands on the line, and blocks that open
   there and go on below), or it opens after line breaks and comments (`Apart`).
   */
  datatype Opening =
    | OneLine
    | Attached(pieces: seq<Piece>, levels: seq<Level>, remark: bool)
    | Apart(gaps: seq<Gap>)

  /** A block that opens on the line of another brace: what stands behind its brace there, and what below. */
  datatype Level = Level(pieces: seq<Piece>, body: seq<Item>, closeFirst: bool)

  /**
   A label with nothing but gaps before the next label or the end of the switch, with
   statements, or with a block. The first statement starts with a word, unless it is a switch.
   */
  datatype Clause =
    | Bare(gaps: seq<Gap>)
    | Plain(gaps: seq<Gap>, items: seq<Item>)
    | Braced(opening: Opening, inner: seq<Item>, closeFirst: bool, after: seq<Item>)

  /**
   A token; the number of unindented clauses around the text behind it; and what its line
   is unindented by if it opens the line. `between`: it stands directly in a clause whose
   block was unindented. `ends`: it ends a switch.
   */
  datatype Note = Note(tok: Token, depth: nat, due: nat, between: bool, ends: bool)

  function N(tok: Token, depth: nat): Note
  {
    Note(tok, depth, depth, false, false)
  }

  /** An unindented block counts for its own lines and for the rest of its clause. */
  function ClauseDepth(c: Clause, depth: nat): nat
  {
    if c.Braced? && !c.opening.OneLine? then depth + 1 else depth
  }

  function LastDepth(clauses: seq<Clause>, depth: nat): nat
  {
    if |clauses| == 0 then depth else ClauseDepth(Top(clauses), depth)
  }

  function GapNotes(gap: Gap, depth: nat, between: bool): seq<Note>
  {
    match gap
    case NewLine => [N(LineStart(false), depth)]
    case LineRemark(own) =>
      (if own then [N(LineStart(false), depth)] else [])
      + [Note(LineComment(own), depth, depth, between, false), N(LineStart(false), depth)]
    case BlockRemark => [Note(BlockComment, depth, depth, between, false)]
  }

  function AllGaps(gaps: seq<Gap>, depth: nat, between: bool): seq<Note>
  {
    if |gaps| == 0 then [] else GapNotes(gaps[0], depth, between) + AllGaps(gaps[1..], depth, between)
  }

  function PieceNotes(piece: Piece, depth: nat): seq<Note>
    decreases piece, 0
  {
    match piece
    case Word => [N(Text, depth)]
    case Remark => [N(BlockComment, depth)]
    case Braces(pieces) => [N(Open, depth)] + (AllPieces(pieces, depth) + [N(Close(false), depth)])
  }

  function AllPieces(pieces: seq<Piece>, depth: nat): seq<Note>
    decreases pieces, 1
  {
    if |pieces| == 0 then [] else PieceNotes(pieces[0], depth) + AllPieces(pieces[1..], depth)
  }

  function Annotate(item: Item, depth: nat, between: bool): seq<Note>
    decreases item, 0
  {
    match item
    case Words => [N(Text, depth)]
    case Space(gap) => GapNotes(gap, depth, between)
    case Block(body, first) => [N(Open, depth)] + (AnnotateAll(body, depth, false) + [N(Close(first), depth)])
    case SwitchStmt(gaps, lead, clauses, last) =>
      SwitchHead(gaps, depth)
      + (AnnotateAll(lead, depth, false) + (AnnotateClauses(clauses, depth) + [SwitchEnd(clauses, last, depth)]))
  }

  function SwitchHead(gaps: seq<Gap>, depth: nat): seq<Note>
  {
    [N(Switch, depth), N(Text, depth)] + (AllGaps(gaps, depth, false) + [N(Open, depth)])
  }

  /** A closing brace that opens its line belongs to the text around the switch. */
  function SwitchEnd(clauses: seq<Clause>, last: bool, depth: nat): Note
  {
    Note(Close(last), depth, if last then depth else LastDepth(clauses, depth), false, true)
  }

  function AnnotateAll(items: seq<Item>, depth: nat, between: bool): seq<Note>
    decreases items, 1
  {
    if |items| == 0 then [] else Annotate(items[0], depth, between) + AnnotateAll(items[1..], depth, between)
  }

  /** The braces that open on the line of another, the outermost first. */
  function Opens(levels: seq<Level>, depth: nat): seq<Note>
  {
    if |levels| == 0 then [] else [N(Open, depth)] + (AllPieces(levels[0].pieces, depth) + Opens(levels[1..], depth))
  }

  function LevelsOf(opening: Opening): seq<Level>
  {
    if opening.Attached? then opening.levels else []
  }

  /** What is below in these blocks, the innermost first. */
  function Bodies(levels: seq<Level>, depth: nat): seq<Note>
    decreases levels, 2
  {
    if |levels| == 0 then []
    else Bodies(levels[1..], depth) + (AnnotateAll(levels[0].body, depth, false) + [N(Close(levels[0].closeFirst), depth)])
  }

  function BodiesOf(opening: Opening, depth: nat): seq<Note>
    decreases opening, 3
  {
    if opening.Attached? then Bodies(opening.levels, depth) else []
  }

  function OpeningNotes(opening: Opening, depth: nat): seq<Note>
  {
    match opening
    case OneLine => [N(Label(Brace(true)), depth)]
    case Attached(pieces, levels, remark) =>
      [N(Label(Brace(false)), depth)]
      + (AllPieces(pieces, depth) + (Opens(levels, depth) + BraceLineEnd(remark, depth)))
    case Apart(gaps) => [N(Label(Nothing), depth)] + (AllGaps(gaps, depth, false) + [N(Open, depth + 1)])
  }

  function BraceLineEnd(remark: bool, depth: nat): seq<Note>
  {
    (if remark then [N(LineComment(false), depth)] else []) + [N(LineStart(false), depth + 1)]
  }

  /** The word that the first statement of a clause starts with. */
  function FirstWord(items: seq<Item>, depth: nat): seq<Note>
  {
    if |items| > 0 && items[0].SwitchStmt? then [] else [N(Text, depth)]
  }

  function AnnotateClause(c: Clause, depth: nat): seq<Note>
    decreases c, 0
  {
    match c
    case Bare(gaps) => [N(Label(Nothing), depth)] + AllGaps(gaps, depth, false)
    case Plain(gaps, items) =>
      [N(Label(Nothing), depth)] + (AllGaps(gaps, depth, false) + (FirstWord(items, depth) + AnnotateAll(items, depth, false)))
    case Braced(opening, inner, closeFirst, after) =>
      var d := ClauseDepth(c, depth);
      OpeningNotes(opening, depth)
      + (BodiesOf(opening, d)
         + (AnnotateAll(inner, d, false) + ([N(Close(closeFirst), d)] + AnnotateAll(after, d, d > depth))))
  }

  function AnnotateClauses(clauses: seq<Clause>, depth: nat): seq<Note>
    decreases clauses, 1
  {
    if |clauses| == 0 then [] else AnnotateClause(clauses[0], depth) + AnnotateClauses(clauses[1..], depth)
  }

  function Tokens(notes: seq<Note>): (r: seq<Token>)
    ensures |r| == |notes|
  {
    seq(|notes|, i requires 0 <= i < |notes| => notes[i].tok)
  }

  // ---------------------------------------------------------------------
  // Lines
  // ---------------------------------------------------------------------

  /**
   A line so far: what its first token calls for (nothing, while there are only comments),
   where the end of a switch has settled it, and whether a comment on it stands between clauses.
   */
  datatype Line = Line(due: Option<nat>, settled: Option<nat>, marked: bool)

  const EMPTY_LINE := Line(None, None, false)

  function Next(line: Line, n: Note): Line
  {
    match n.tok
    case LineStart(_) => EMPTY_LINE
    case LineComment(first) => line.(marked := line.marked || (first && n.between))
    case BlockComment => line.(marked := line.marked || n.between)
    case _ =>
      line.(due := if line.due.Some? then line.due else Some(n.due),
            settled := if line.settled.None? && n.ends then Some(n.due) else line.settled)
  }

  /** A line of comments between clauses goes with the labels, any other line with its first token. */
  function Due(line: Line, depth: nat): nat
  {
    if line.due.Some? then line.due.value else if line.marked && depth > 0 then depth - 1 else depth
  }

  /** What each line is unindented by. */
  function LineAmounts(st: State, toks: seq<Token>): (r: seq<int>)
    ensures |r| > 0
    decreases |toks|
  {
    if |toks| == 0 then [Amount(st)]
    else (if toks[0].LineStart? then [Amount(st)] else []) + LineAmounts(Step(st, toks[0]), toks[1..])
  }

  /** What each line is to be unindented by. */
  function LineDepths(line: Line, depth: nat, notes: seq<Note>): (r: seq<int>)
    ensures |r| > 0
    decreases |notes|
  {
    if |notes| == 0 then [Due(line, depth)]
    else (if notes[0].tok.LineStart? then [Due(line, depth)] else []) + LineDepths(Next(line, notes[0]), notes[0].depth, notes[1..])
  }

  /**
   A line that ends at `depth` comes out right if this is the depth it began at, or the end
   of a switch settled it there. A comment between clauses on it takes one indent from an open
   line, and adds all but one of the indents there to a settled one.
   */
  predicate Fits(line: Line, depth: nat)
  {
    line.due.Some? ==>
      var due := line.due.value;
      match line.settled
      case None => if line.marked && depth > 0 then depth == due + 1 else depth == due
      case Some(v) => if line.marked && depth > 0 then v + depth == due + 1 else v == due
  }

  predicate LinesFit(line: Line, depth: nat, notes: seq<Note>)
    decreases |notes|
  {
    if |notes| == 0 then Fits(line, depth)
    else (notes[0].tok.LineStart? ==> Fits(line, depth)) && LinesFit(Next(line, notes[0]), notes[0].depth, notes[1..])
  }

  /** The state agrees with the line so far and the depth reached. */
  predicate Shows(st: State, line: Line, depth: nat)
  {
    st.sw.unindentDepth == depth && st.shouldUnindentComment == line.marked &&
    (match line.settled
     case None => st.shouldUnindentLine && st.unindented == 0
     case Some(v) => !st.shouldUnindentLine && st.unindented == v && line.due.Some?)
  }

  /** What a line that ends at `depth` is unindented by. */
  function Taken(line: Line, depth: nat): nat
  {
    (if line.settled.Some? then line.settled.value else 0)
    + if line.marked && depth > 0 then depth - 1 else if line.settled.None? then depth else 0
  }

  lemma {:induction false} AmountOfLine(st: State, line: Line, depth: nat)
    requires Shows(st, line, depth)
    ensures Amount(st) == Taken(line, depth)
    ensures Amount(st) == Due(line, depth) <==> Fits(line, depth)
  {
  }

  /** From `st` the notes run as they say, and end in `end`. */
  predicate Follows(st: State, line: Line, notes: seq<Note>, end: State, endLine: Line)
    decreases |notes|
  {
    if |notes| == 0 then st == end && line == endLine
    else
      Shows(Step(st, notes[0].tok), Next(line, notes[0]), notes[0].depth) &&
      Follows(Step(st, notes[0].tok), Next(line, notes[0]), notes[1..], end, endLine)
  }

  lemma {:induction false} FollowsMeans(st: State, line: Line, depth: nat, notes: seq<Note>, end: State, endLine: Line)
    requires Shows(st, line, depth) && Follows(st, line, notes, end, endLine)
    ensures Run(st, Tokens(notes)) == end
    ensures LineAmounts(st, Tokens(notes)) == LineDepths(line, depth, notes) <==> LinesFit(line, depth, notes)
    ensures |LineAmounts(st, Tokens(notes))| == |LineDepths(line, depth, notes)|
    decreases |notes|
  {
    AmountOfLine(st, line, depth);
    if |notes| > 0 {
      var st', line' := Step(st, notes[0].tok), Next(line, notes[0]);
      assert Tokens(notes)[1..] == Tokens(notes[1..]);
      FollowsMeans(st', line', notes[0].depth, notes[1..], end, endLine);
      if notes[0].tok.LineStart? {
        ConsEqual(Amount(st), LineAmounts(st', Tokens(notes[1..])), Due(line, depth), LineDepths(line', notes[0].depth, notes[1..]));
      } else {
        assert [] + LineAmounts(st', Tokens(notes[1..])) == LineAmounts(st', Tokens(notes[1..]));
        assert [] + LineDepths(line', notes[0].depth, notes[1..]) == LineDepths(line', notes[0].depth, notes[1..]);
      }
    }
  }

  lemma {:induction false} ConsEqual(a: int, s: seq<int>, b: int, t: seq<int>)
    ensures [a] + s == [b] + t <==> a == b && s == t
  {
    if [a] + s == [b] + t {
      assert ([a] + s)[0] == a && ([a] + s)[1..] == s;
      assert ([b] + t)[0] == b && ([b] + t)[1..] == t;
    }
  }

  lemma {:induction false} Join(st: State, l0: Line, a: seq<Note>, mid: State, l1: Line, b: seq<Note>, end: State, l2: Line)
    requires Follows(st, l0, a, mid, l1) && Follows(mid, l1, b, end, l2)
    ensures Follows(st, l0, a + b, end, l2)
    decreases |a|
  {
    if |a| == 0 {
      assert a + b == b;
    } else {
      assert (a + b)[1..] == a[1..] + b;
      Join(Step(st, a[0].tok), Next(l0, a[0]), a[1..], mid, l1, b, end, l2);
    }
  }

  lemma {:induction false} One(st: State, line: Line, n: Note)
    requires Shows(Step(st, n.tok), Next(line, n), n.depth)
    ensures Follows(st, line, [n], Step(st, n.tok), Next(line, n))
  {
    assert [n][1..] == [];
  }

  // ---------------------------------------------------------------------
  // The tracker follows the structure
  // ---------------------------------------------------------------------

  /** Everything but the line-scoped fields. */
  predicate SameTracking(a: State, b: State)
  {
    a.braceCount == b.braceCount && a.switchDepth == b.switchDepth && a.switchStack == b.switchStack && a.sw == b.sw
  }

  /** In a switch its brace is open; elsewhere nothing is counted. */
  predicate InOwnBrace(st: State)
  {
    if st.switchDepth > 0 then st.sw.switchBraceCount > 0 else st.sw.switchBraceCount == 0
  }

  /** No line is waiting to be unindented. */
  predicate Steady(st: State, line: Line, depth: nat)
  {
    Shows(st, line, depth) && !st.unindentNextLine && !st.skipping && st.switchDepth == |st.switchStack|
  }

  /** Before an item; a label may be waiting for its brace. */
  predicate Before(st: State, line: Line, depth: nat)
  {
    Steady(st, line, depth) && InOwnBrace(st)
  }

  /** Between items. */
  predicate At(st: State, line: Line, depth: nat)
  {
    Before(st, line, depth) && !st.lookingForCaseBrace
  }

  lemma {:induction false} RunsRemark(st: State, line: Line, own: bool, depth: nat) returns (end: State, endLine: Line)
    requires Steady(st, line, depth)
    ensures Follows(st, line, GapNotes(LineRemark(own), depth, Between(st)), end, endLine)
    ensures Steady(end, endLine, depth) && SameTracking(end, st) && end.lookingForCaseBrace == st.lookingForCaseBrace
  {
    var start, remark := N(LineStart(false), depth), Note(LineComment(own), depth, depth, Between(st), false);
    var head := if own then [start] else [];
    var st1, line1 := if own then Step(st, LineStart(false)) else st, if own then EMPTY_LINE else line;
    var st2, line2 := Step(st1, remark.tok), Next(line1, remark);
    if own {
      One(st, line, start);
    }
    One(st1, line1, remark);
    One(st2, line2, start);
    end, endLine := Step(st2, start.tok), EMPTY_LINE;
    Join(st1, line1, [remark], st2, line2, [start], end, endLine);
    assert [remark] + [start] == [remark, start];
    Join(st, line, head, st1, line1, [remark, start], end, endLine);
  }

  lemma {:induction false} RunsGap(st: State, line: Line, gap: Gap, depth: nat) returns (end: State, endLine: Line)
    requires Steady(st, line, depth)
    ensures Follows(st, line, GapNotes(gap, depth, Between(st)), end, endLine)
    ensures Steady(end, endLine, depth) && SameTracking(end, st) && end.lookingForCaseBrace == st.lookingForCaseBrace
  {
    match gap
    case NewLine =>
      One(st, line, N(LineStart(false), depth));
      end, endLine := Step(st, LineStart(false)), EMPTY_LINE;
    case LineRemark(own) => end, endLine := RunsRemark(st, line, own, depth);
    case BlockRemark =>
      var remark := Note(BlockComment, depth, depth, Between(st), false);
      One(st, line, remark);
      end, endLine := Step(st, BlockComment), Next(line, remark);
  }

  /** Line breaks and comments change nothing that is tracked, and keep a label waiting for its brace. */
  lemma {:induction false} RunsGaps(st: State, line: Line, gaps: seq<Gap>, depth: nat) returns (end: State, endLine: Line)
    requires Steady(st, line, depth)
    ensures Follows(st, line, AllGaps(gaps, depth, Between(st)), end, endLine)
    ensures Steady(end, endLine, depth) && SameTracking(end, st) && end.lookingForCaseBrace == st.lookingForCaseBrace
    decreases |gaps|
  {
    if |gaps| == 0 {
      end, endLine := st, line;
    } else {
      var mid, midLine := RunsGap(st, line, gaps[0], depth);
      end, endLine := RunsGaps(mid, midLine, gaps[1..], depth);
      Join(st, line, GapNotes(gaps[0], depth, Between(st)), mid, midLine, AllGaps(gaps[1..], depth, Between(st)), end, endLine);
    }
  }

  /** On the line of a brace that has just been opened behind a label. */
  predicate OnBraceLine(st: State, line: Line, depth: nat)
  {
    Shows(st, line, depth) && st.unindentNextLine && !st.skipping && !st.lookingForCaseBrace &&
    st.switchDepth == |st.switchStack| > 0 && st.sw.switchBraceCount >= 2 && !st.sw.unindentCase
  }

  lemma {:induction false} RunsPiece(st: State, line: Line, piece: Piece, depth: nat) returns (end: State, endLine: Line)
    requires OnBraceLine(st, line, depth)
    ensures Follows(st, line, PieceNotes(piece, depth), end, endLine)
    ensures OnBraceLine(end, endLine, depth) && SameTracking(end, st)
    decreases piece, 0
  {
    match piece
    case Word =>
      One(st, line, N(Text, depth));
      end, endLine := Step(st, Text), Next(line, N(Text, depth));
    case Remark =>
      One(st, line, N(BlockComment, depth));
      end, endLine := Step(st, BlockComment), Next(line, N(BlockComment, depth));
    case Braces(pieces) =>
      var open, close := N(Open, depth), N(Close(false), depth);
      var st1, line1 := Step(st, Open), Next(line, open);
      One(st, line, open);
      var st2, line2 := RunsPieces(st1, line1, pieces, depth);
      end, endLine := Step(st2, close.tok), Next(line2, close);
      One(st2, line2, close);
      Join(st1, line1, AllPieces(pieces, depth), st2, line2, [close], end, endLine);
      Join(st, line, [open], st1, line1, AllPieces(pieces, depth) + [close], end, endLine);
  }

  lemma {:induction false} RunsPieces(st: State, line: Line, pieces: seq<Piece>, depth: nat) returns (end: State, endLine: Line)
    requires OnBraceLine(st, line, depth)
    ensures Follows(st, line, AllPieces(pieces, depth), end, endLine)
    ensures OnBraceLine(end, endLine, depth) && SameTracking(end, st)
    decreases pieces, 1
  {
    if |pieces| == 0 {
      end, endLine := st, line;
    } else {
      var mid, midLine := RunsPiece(st, line, pieces[0], depth);
      end, endLine := RunsPieces(mid, midLine, pieces[1..], depth);
      Join(st, line, PieceNotes(pieces[0], depth), mid, midLine, AllPieces(pieces[1..], depth), end, endLine);
    }
  }

  /** An item leaves everything it found, except what it did to its line. */
  lemma {:induction false} RunsItem(st: State, line: Line, item: Item, depth: nat) returns (end: State, endLine: Line)
    requires At(st, line, depth)
    ensures Follows(st, line, Annotate(item, depth, Between(st)), end, endLine)
    ensures At(end, endLine, depth) && SameTracking(end, st)
    decreases item, 1
  {
    match item
    case Words =>
      One(st, line, N(Text, depth));
      end, endLine := Step(st, Text), Next(line, N(Text, depth));
    case Space(gap) => end, endLine := RunsGap(st, line, gap, depth);
    case Block(_, _) => end, endLine := RunsBlock(st, line, item, depth);
    case SwitchStmt(_, _, _, _) => end, endLine := RunsSwitch(st, line, item, depth);
  }

  lemma {:induction false} RunsAll(st: State, line: Line, items: seq<Item>, depth: nat) returns (end: State, endLine: Line)
    requires At(st, line, depth)
    ensures Follows(st, line, AnnotateAll(items, depth, Between(st)), end, endLine)
    ensures At(end, endLine, depth) && SameTracking(end, st)
    decreases items, 1
  {
    if |items| == 0 {
      end, endLine := st, line;
    } else {
      var mid, midLine := RunsItem(st, line, items[0], depth);
      end, endLine := RunsAll(mid, midLine, items[1..], depth);
      Join(st, line, Annotate(items[0], depth, Between(st)), mid, midLine, AnnotateAll(items[1..], depth, Between(st)), end, endLine);
    }
  }

  lemma {:induction false} RunsBrace(st: State, line: Line, n: Note, depth: nat) returns (end: State, endLine: Line)
    requires At(st, line, depth) && (n == N(Open, depth) || (n.tok.Close? && n == N(n.tok, depth) && st.sw.switchBraceCount != 1))
    ensures end == Step(st, n.tok) && endLine == Next(line, n) && Follows(st, line, [n], end, endLine)
    ensures Steady(end, endLine, depth) && !end.lookingForCaseBrace && end.switchStack == st.switchStack
    ensures end.switchDepth == st.switchDepth && end.braceCount == st.braceCount + if n.tok.Open? then 1 else -1
    ensures end.sw == st.sw.(switchBraceCount := st.sw.switchBraceCount + if st.switchDepth == 0 then 0 else if n.tok.Open? then 1 else -1)
  {
    end, endLine := Step(st, n.tok), Next(line, n);
    One(st, line, n);
  }

  lemma {:induction false} RunsBlock(st: State, line: Line, item: Item, depth: nat) returns (end: State, endLine: Line)
    requires At(st, line, depth) && item.Block?
    ensures Follows(st, line, Annotate(item, depth, Between(st)), end, endLine)
    ensures At(end, endLine, depth) && SameTracking(end, st)
    decreases item, 0
  {
    var open, close, body := N(Open, depth), N(Close(item.first), depth), AnnotateAll(item.body, depth, false);
    var st1, line1 := RunsBrace(st, line, open, depth);
    var st2, line2 := RunsAll(st1, line1, item.body, depth);
    end, endLine := RunsBrace(st2, line2, close, depth);
    Join(st1, line1, body, st2, line2, [close], end, endLine);
    Join(st, line, [open], st1, line1, body + [close], end, endLine);
  }

  lemma {:induction false} RunsHead(st: State, line: Line, gaps: seq<Gap>, depth: nat) returns (end: State, endLine: Line)
    requires Before(st, line, depth)
    ensures Follows(st, line, SwitchHead(gaps, depth), end, endLine)
    ensures At(end, endLine, depth) && end.switchStack == st.switchStack + [st.sw]
    ensures end.braceCount == st.braceCount + 1 && end.sw == SwitchVariables(1, depth, false)
  {
    var n1, n2, open := N(Switch, depth), N(Text, depth), N(Open, depth);
    var st1, line1 := Step(st, Switch), Next(line, n1);
    var st2, line2 := Step(st1, Text), Next(line1, n2);
    One(st, line, n1);
    One(st1, line1, n2);
    Join(st, line, [n1], st1, line1, [n2], st2, line2);
    assert [n1] + [n2] == [n1, n2];
    var st3, line3 := RunsGaps(st2, line2, gaps, depth);
    end, endLine := Step(st3, Open), Next(line3, open);
    One(st3, line3, open);
    Join(st2, line2, AllGaps(gaps, depth, false), st3, line3, [open], end, endLine);
    Join(st, line, [n1, n2], st2, line2, AllGaps(gaps, depth, false) + [open], end, endLine);
  }

  /** In a switch whose own brace is the innermost open one. */
  predicate InClauses(st: State, line: Line, depth: nat)
  {
    Steady(st, line, depth + if st.sw.unindentCase then 1 else 0) && st.switchDepth > 0 && st.sw.switchBraceCount == 1
  }

  /** What the brace that ends a switch does. */
  lemma {:induction false} EndsSwitch(st: State, line: Line, first: bool, depth: nat)
    requires InClauses(st, line, depth)
    ensures var outer := Top(st.switchStack);
            var taken := if first then outer.unindentDepth else st.sw.unindentDepth;
            Step(st, Close(first)) == st.(
              braceCount := st.braceCount - 1, switchDepth := st.switchDepth - 1, switchStack := Pop(st.switchStack),
              sw := outer, lookingForCaseBrace := false, shouldUnindentLine := false,
              unindented := if line.settled.Some? then st.unindented else if taken > 0 then taken else 0)
  {
  }

  /** The closing brace settles its line and brings back the enclosing switch. */
  lemma {:induction false} RunsSwitchEnd(st: State, st3: State, line: Line, clauses: seq<Clause>, last: bool, depth: nat)
    requires InClauses(st3, line, depth) && st3.sw.unindentDepth == LastDepth(clauses, depth)
    requires st3.switchStack == st.switchStack + [st.sw] && st3.braceCount == st.braceCount + 1
    requires st.sw.unindentDepth == depth && st.switchDepth == |st.switchStack| && InOwnBrace(st)
    ensures var n := SwitchEnd(clauses, last, depth);
            var end := Step(st3, n.tok);
            Follows(st3, line, [n], end, Next(line, n)) && At(end, Next(line, n), depth) && SameTracking(end, st)
  {
    var n := SwitchEnd(clauses, last, depth);
    assert Top(st3.switchStack) == st.sw && Pop(st3.switchStack) == st.switchStack;
    EndsSwitch(st3, line, last, depth);
    One(st3, line, n);
  }

  lemma {:induction false} RunsSwitch(st: State, line: Line, item: Item, depth: nat) returns (end: State, endLine: Line)
    requires Before(st, line, depth) && item.SwitchStmt?
    ensures Follows(st, line, Annotate(item, depth, Between(st)), end, endLine)
    ensures At(end, endLine, depth) && SameTracking(end, st)
    decreases item, 0
  {
    var lead, clauses := AnnotateAll(item.lead, depth, false), AnnotateClauses(item.clauses, depth);
    var last := SwitchEnd(item.clauses, item.last, depth);
    var st1, line1 := RunsHead(st, line, item.gaps, depth);
    var st2, line2 := RunsAll(st1, line1, item.lead, depth);
    var st3, line3 := RunsClauses(st2, line2, item.clauses, depth);
    end, endLine := Step(st3, last.tok), Next(line3, last);
    RunsSwitchEnd(st, st3, line3, item.clauses, item.last, depth);
    Join(st2, line2, clauses, st3, line3, [last], end, endLine);
    Join(st1, line1, lead, st2, line2, clauses + [last], end, endLine);
    Join(st, line, SwitchHead(item.gaps, depth), st1, line1, lead + (clauses + [last]), end, endLine);
  }

  /** Everything but the unindent of the current clause. */
  predicate SameSwitch(a: State, b: State)
  {
    a.braceCount == b.braceCount && a.switchDepth == b.switchDepth && a.switchStack == b.switchStack &&
    a.sw.switchBraceCount == b.sw.switchBraceCount
  }

  lemma {:induction false} RunsClauses(st: State, line: Line, clauses: seq<Clause>, depth: nat) returns (end: State, endLine: Line)
    requires InClauses(st, line, depth)
    ensures Follows(st, line, AnnotateClauses(clauses, depth), end, endLine)
    ensures InClauses(end, endLine, depth) && SameSwitch(end, st)
    ensures |clauses| == 0 ==> end == st
    ensures |clauses| > 0 ==> end.sw.unindentDepth == LastDepth(clauses, depth)
    decreases clauses, 1
  {
    if |clauses| == 0 {
      end, endLine := st, line;
    } else {
      var mid, midLine := RunsClause(st, line, clauses[0], depth);
      end, endLine := RunsClauses(mid, midLine, clauses[1..], depth);
      Join(st, line, AnnotateClause(clauses[0], depth), mid, midLine, AnnotateClauses(clauses[1..], depth), end, endLine);
    }
  }

  /** A label without a brace, and what comes before its first statement or brace. */
  lemma {:induction false} RunsLabel(st: State, line: Line, gaps: seq<Gap>, depth: nat) returns (end: State, endLine: Line)
    requires InClauses(st, line, depth)
    ensures Follows(st, line, [N(Label(Nothing), depth)] + AllGaps(gaps, depth, false), end, endLine)
    ensures InClauses(end, endLine, depth) && SameSwitch(end, st) && end.lookingForCaseBrace && !end.sw.unindentCase
  {
    var caseLabel := N(Label(Nothing), depth);
    var st1, line1 := Step(st, caseLabel.tok), Next(line, caseLabel);
    One(st, line, caseLabel);
    end, endLine := RunsGaps(st1, line1, gaps, depth);
    Join(st, line, [caseLabel], st1, line1, AllGaps(gaps, depth, false), end, endLine);
  }

  /** In the block of a clause, and in `levels` blocks in it. */
  predicate InBlock(st: State, line: Line, depth: nat, unindented: bool, levels: nat)
  {
    At(st, line, depth) && st.switchDepth > 0 && st.sw.switchBraceCount == 2 + levels && st.sw.unindentCase == unindented
  }

  lemma {:induction false} RunsApart(st: State, line: Line, gaps: seq<Gap>, depth: nat) returns (end: State, endLine: Line)
    requires InClauses(st, line, depth)
    ensures Follows(st, line, OpeningNotes(Apart(gaps), depth), end, endLine)
    ensures InBlock(end, endLine, depth + 1, true, 0) && end.switchStack == st.switchStack && end.switchDepth == st.switchDepth
    ensures end.braceCount == st.braceCount + 1
  {
    var caseLabel, open := [N(Label(Nothing), depth)], N(Open, depth + 1);
    var st1, line1 := RunsLabel(st, line, gaps, depth);
    end, endLine := Step(st1, Open), Next(line1, open);
    One(st1, line1, open);
    Join(st, line, caseLabel + AllGaps(gaps, depth, false), st1, line1, [open], end, endLine);
    assert caseLabel + AllGaps(gaps, depth, false) + [open] == OpeningNotes(Apart(gaps), depth);
  }

  /** The end of the line of a brace: from the next line on the block is unindented. */
  lemma {:induction false} RunsBraceLineEnd(st: State, line: Line, remark: bool, depth: nat) returns (end: State, endLine: Line)
    requires OnBraceLine(st, line, depth)
    ensures Follows(st, line, BraceLineEnd(remark, depth), end, endLine)
    ensures InBlock(end, endLine, depth + 1, true, st.sw.switchBraceCount - 2) && end.switchStack == st.switchStack && end.switchDepth == st.switchDepth
    ensures end.braceCount == st.braceCount
  {
    var start, comment := N(LineStart(false), depth + 1), N(LineComment(false), depth);
    end, endLine := Step(st, start.tok), EMPTY_LINE;
    One(st, line, start);
    if remark {
      One(st, line, comment);
      Join(st, line, [comment], st, line, [start], end, endLine);
    } else {
      assert [] + [start] == [start];
    }
  }

  lemma {:induction false} RunsAttached(st: State, line: Line, opening: Opening, depth: nat) returns (end: State, endLine: Line)
    requires InClauses(st, line, depth) && opening.Attached?
    ensures Follows(st, line, OpeningNotes(opening, depth), end, endLine)
    ensures InBlock(end, endLine, depth + 1, true, |opening.levels|)
    ensures end.switchStack == st.switchStack && end.switchDepth == st.switchDepth
    ensures end.braceCount == st.braceCount + 1 + |opening.levels|
  {
    var caseLabel, pieces, opens := N(Label(Brace(false)), depth), AllPieces(opening.pieces, depth), Opens(opening.levels, depth);
    var tail := BraceLineEnd(opening.remark, depth);
    var st1, line1 := Step(st, caseLabel.tok), Next(line, caseLabel);
    One(st, line, caseLabel);
    var st2, line2 := RunsPieces(st1, line1, opening.pieces, depth);
    var st3, line3 := RunsOpens(st2, line2, opening.levels, depth);
    end, endLine := RunsBraceLineEnd(st3, line3, opening.remark, depth);
    Join(st2, line2, opens, st3, line3, tail, end, endLine);
    Join(st1, line1, pieces, st2, line2, opens + tail, end, endLine);
    Join(st, line, [caseLabel], st1, line1, pieces + (opens + tail), end, endLine);
  }

  lemma {:induction false} RunsOpens(st: State, line: Line, levels: seq<Level>, depth: nat) returns (end: State, endLine: Line)
    requires OnBraceLine(st, line, depth)
    ensures Follows(st, line, Opens(levels, depth), end, endLine)
    ensures OnBraceLine(end, endLine, depth) && end.switchStack == st.switchStack && end.switchDepth == st.switchDepth
    ensures end.braceCount == st.braceCount + |levels| && end.sw == st.sw.(switchBraceCount := st.sw.switchBraceCount + |levels|)
    decreases |levels|
  {
    if |levels| == 0 {
      end, endLine := st, line;
    } else {
      var open, pieces := N(Open, depth), AllPieces(levels[0].pieces, depth);
      var st1, line1 := Step(st, Open), Next(line, open);
      One(st, line, open);
      var st2, line2 := RunsPieces(st1, line1, levels[0].pieces, depth);
      end, endLine := RunsOpens(st2, line2, levels[1..], depth);
      Join(st1, line1, pieces, st2, line2, Opens(levels[1..], depth), end, endLine);
      Join(st, line, [open], st1, line1, pieces + Opens(levels[1..], depth), end, endLine);
    }
  }

  lemma {:induction false} RunsBodies(st: State, line: Line, opening: Opening, depth: nat, unindented: bool)
      returns (end: State, endLine: Line)
    requires InBlock(st, line, depth, unindented, |LevelsOf(opening)|)
    ensures Follows(st, line, BodiesOf(opening, depth), end, endLine)
    ensures InBlock(end, endLine, depth, unindented, 0)
    ensures end.switchStack == st.switchStack && end.switchDepth == st.switchDepth
    ensures end.braceCount == st.braceCount - |LevelsOf(opening)|
    decreases opening, 3
  {
    if opening.Attached? {
      end, endLine := RunsLevels(st, line, opening.levels, depth, unindented, 0);
    } else {
      end, endLine := st, line;
    }
  }

  /** The bodies of the innermost levels; `outer` others are still open. */
  lemma {:induction false} RunsLevels(st: State, line: Line, levels: seq<Level>, depth: nat, unindented: bool, outer: nat)
      returns (end: State, endLine: Line)
    requires InBlock(st, line, depth, unindented, outer + |levels|)
    ensures Follows(st, line, Bodies(levels, depth), end, endLine)
    ensures InBlock(end, endLine, depth, unindented, outer)
    ensures end.switchStack == st.switchStack && end.switchDepth == st.switchDepth && end.braceCount == st.braceCount - |levels|
    decreases levels, 2
  {
    if |levels| == 0 {
      end, endLine := st, line;
    } else {
      var body, close := AnnotateAll(levels[0].body, depth, false), N(Close(levels[0].closeFirst), depth);
      var st1, line1 := RunsLevels(st, line, levels[1..], depth, unindented, outer + 1);
      var st2, line2 := RunsAll(st1, line1, levels[0].body, depth);
      end, endLine := RunsBrace(st2, line2, close, depth);
      Join(st1, line1, body, st2, line2, [close], end, endLine);
      Join(st, line, Bodies(levels[1..], depth), st1, line1, body + [close], end, endLine);
    }
  }

  lemma {:induction false} RunsOpening(st: State, line: Line, opening: Opening, depth: nat) returns (end: State, endLine: Line)
    requires InClauses(st, line, depth)
    ensures Follows(st, line, OpeningNotes(opening, depth), end, endLine)
    ensures InBlock(end, endLine, depth + (if opening.OneLine? then 0 else 1), !opening.OneLine?, |LevelsOf(opening)|)
    ensures end.switchStack == st.switchStack && end.switchDepth == st.switchDepth
    ensures end.braceCount == st.braceCount + 1 + |LevelsOf(opening)|
  {
    match opening
    case OneLine =>
      var caseLabel := N(Label(Brace(true)), depth);
      One(st, line, caseLabel);
      end, endLine := Step(st, caseLabel.tok), Next(line, caseLabel);
    case Attached(_, _, _) => end, endLine := RunsAttached(st, line, opening, depth);
    case Apart(gaps) => end, endLine := RunsApart(st, line, gaps, depth);
  }

  lemma {:induction false} RunsPlain(st: State, line: Line, items: seq<Item>, depth: nat) returns (end: State, endLine: Line)
    requires InClauses(st, line, depth) && !st.sw.unindentCase
    ensures Follows(st, line, FirstWord(items, depth) + AnnotateAll(items, depth, false), end, endLine)
    ensures InClauses(end, endLine, depth) && SameTracking(end, st)
    decreases items, 2
  {
    if |items| > 0 && items[0].SwitchStmt? {
      var mid, midLine := RunsSwitch(st, line, items[0], depth);
      end, endLine := RunsAll(mid, midLine, items[1..], depth);
      Join(st, line, Annotate(items[0], depth, false), mid, midLine, AnnotateAll(items[1..], depth, false), end, endLine);
      assert [] + AnnotateAll(items, depth, false) == AnnotateAll(items, depth, false);
    } else {
      var word := N(Text, depth);
      One(st, line, word);
      end, endLine := RunsAll(Step(st, Text), Next(line, word), items, depth);
      Join(st, line, [word], Step(st, Text), Next(line, word), AnnotateAll(items, depth, false), end, endLine);
    }
  }

  lemma {:induction false} JoinPlain(st: State, l0: Line, gaps: seq<Gap>, mid: State, l1: Line, items: seq<Item>, depth: nat, end: State, l2: Line)
    requires Follows(st, l0, [N(Label(Nothing), depth)] + AllGaps(gaps, depth, false), mid, l1)
    requires Follows(mid, l1, FirstWord(items, depth) + AnnotateAll(items, depth, false), end, l2)
    ensures Follows(st, l0, AnnotateClause(Plain(gaps, items), depth), end, l2)
  {
    var head, body := [N(Label(Nothing), depth)] + AllGaps(gaps, depth, false), FirstWord(items, depth) + AnnotateAll(items, depth, false);
    Join(st, l0, head, mid, l1, body, end, l2);
    assert head + body == AnnotateClause(Plain(gaps, items), depth);
  }

  lemma {:induction false} RunsClause(st: State, line: Line, c: Clause, depth: nat) returns (end: State, endLine: Line)
    requires InClauses(st, line, depth)
    ensures Follows(st, line, AnnotateClause(c, depth), end, endLine)
    ensures InClauses(end, endLine, depth) && SameSwitch(end, st) && end.sw.unindentDepth == ClauseDepth(c, depth)
    decreases c, 0
  {
    match c
    case Bare(gaps) => end, endLine := RunsLabel(st, line, gaps, depth);
    case Plain(gaps, items) =>
      var st1, line1 := RunsLabel(st, line, gaps, depth);
      end, endLine := RunsPlain(st1, line1, items, depth);
      JoinPlain(st, line, gaps, st1, line1, items, depth, end, endLine);
    case Braced(_, _, _, _) => end, endLine := RunsBraced(st, line, c, depth);
  }

  lemma {:induction false} RunsBraced(st: State, line: Line, c: Clause, depth: nat) returns (end: State, endLine: Line)
    requires InClauses(st, line, depth) && c.Braced?
    ensures Follows(st, line, AnnotateClause(c, depth), end, endLine)
    ensures InClauses(end, endLine, depth) && SameSwitch(end, st) && end.sw.unindentDepth == ClauseDepth(c, depth)
    decreases c, 0, 0
  {
    var d := ClauseDepth(c, depth);
    var bodies, inner := BodiesOf(c.opening, d), AnnotateAll(c.inner, d, false);
    var close, after := N(Close(c.closeFirst), d), AnnotateAll(c.after, d, d > depth);
    var st0, line0 := RunsOpening(st, line, c.opening, depth);
    var st1, line1 := RunsBodies(st0, line0, c.opening, d, d > depth);
    var st2, line2 := RunsAll(st1, line1, c.inner, d);
    var st3, line3 := RunsBrace(st2, line2, close, d);
    end, endLine := RunsAll(st3, line3, c.after, d);
    Join(st2, line2, [close], st3, line3, after, end, endLine);
    Join(st1, line1, inner, st2, line2, [close] + after, end, endLine);
    Join(st0, line0, bodies, st1, line1, inner + ([close] + after), end, endLine);
    Join(st, line, OpeningNotes(c.opening, depth), st0, line0, bodies + (inner + ([close] + after)), end, endLine);
  }

  /**
   For structured text every line is unindented once for each braced clause around its
   first token, a line of comments between the clauses of a switch with the labels, if and
   only if each line fits; and the brace count, the stack and the switch variables come
   back unchanged whether or not.
   */
  lemma {:induction false} UnindentIsClauseDepth(items: seq<Item>)
    ensures var start := BeginLine(INITIAL, false);
            var notes := AnnotateAll(items, 0, false);
            (LineAmounts(start, Tokens(notes)) == LineDepths(EMPTY_LINE, 0, notes) <==> LinesFit(EMPTY_LINE, 0, notes)) &&
            SameTracking(Run(start, Tokens(notes)), start)
  {
    var start := BeginLine(INITIAL, false);
    var end, endLine := RunsAll(start, EMPTY_LINE, items, 0);
    FollowsMeans(start, EMPTY_LINE, 0, AnnotateAll(items, 0, false), end, endLine);
  }

  // ---------------------------------------------------------------------
  // Comments that share a line
  // ---------------------------------------------------------------------

  /** Every line ends, or is settled, at the depth it began at. */
  predicate LevelLines(line: Line, depth: nat, notes: seq<Note>)
    decreases |notes|
  {
    (|notes| == 0 || notes[0].tok.LineStart? ==>
       line.due.Some? ==> line.due.value == if line.settled.Some? then line.settled.value else depth) &&
    (|notes| > 0 ==> LevelLines(Next(line, notes[0]), notes[0].depth, notes[1..]))
  }

  /**
   No comment between clauses shares its line with other text, unless no clause there is
   unindented, or only one is and the end of a switch has settled the line.
   */
  predicate CommentsStandApart(line: Line, depth: nat, notes: seq<Note>)
    decreases |notes|
  {
    (|notes| == 0 || notes[0].tok.LineStart? ==>
       line.due.Some? && line.marked ==> depth == 0 || (line.settled.Some? && depth == 1)) &&
    (|notes| > 0 ==> CommentsStandApart(Next(line, notes[0]), notes[0].depth, notes[1..]))
  }

  lemma {:induction false} OnlyCommentsMove(line: Line, depth: nat, notes: seq<Note>)
    requires LevelLines(line, depth, notes)
    ensures LinesFit(line, depth, notes) <==> CommentsStandApart(line, depth, notes)
    decreases |notes|
  {
    if |notes| > 0 {
      OnlyCommentsMove(Next(line, notes[0]), notes[0].depth, notes[1..]);
    }
  }

  /**
   Where no line changes its depth, every line of a text comes out right if and only if
   the comments between its clauses stand apart.
   */
  lemma {:induction false} CommentsMoveLines(items: seq<Item>)
    requires LevelLines(EMPTY_LINE, 0, AnnotateAll(items, 0, false))
    ensures var notes := AnnotateAll(items, 0, false);
            LineAmounts(BeginLine(INITIAL, false), Tokens(notes)) == LineDepths(EMPTY_LINE, 0, notes)
            <==> CommentsStandApart(EMPTY_LINE, 0, notes)
  {
    UnindentIsClauseDepth(items);
    OnlyCommentsMove(EMPTY_LINE, 0, AnnotateAll(items, 0, false));
  }

  // ---------------------------------------------------------------------
  // Comments to the end of the line
  // ---------------------------------------------------------------------

  /** A line comment that is first on its line is alone on it. */
  predicate Alone(notes: seq<Note>)
  {
    forall i :: 0 <= i < |notes| && notes[i].tok == LineComment(true) ==>
      0 < i && notes[i - 1].tok.LineStart? && i + 1 < |notes| && notes[i + 1].tok.LineStart?
  }

  predicate NoBlockComment(notes: seq<Note>)
  {
    forall i :: 0 <= i < |notes| ==> !notes[i].tok.BlockComment?
  }

  lemma {:induction false} AloneSum(a: seq<Note>, b: seq<Note>)
    requires Alone(a) && Alone(b)
    ensures Alone(a + b)
  {
    forall i | 0 <= i < |a + b| && (a + b)[i].tok == LineComment(true)
      ensures 0 < i && (a + b)[i - 1].tok.LineStart? && i + 1 < |a + b| && (a + b)[i + 1].tok.LineStart?
    {
      if i < |a| {
        assert a[i].tok == LineComment(true);
      } else {
        assert b[i - |a|].tok == LineComment(true);
      }
    }
  }

  lemma {:induction false} GapsAlone(gaps: seq<Gap>, depth: nat, between: bool)
    ensures Alone(AllGaps(gaps, depth, between))
    decreases |gaps|
  {
    if |gaps| > 0 {
      GapsAlone(gaps[1..], depth, between);
      AloneSum(GapNotes(gaps[0], depth, between), AllGaps(gaps[1..], depth, between));
    }
  }

  lemma {:induction false} PieceAlone(piece: Piece, depth: nat)
    ensures Alone(PieceNotes(piece, depth))
    decreases piece, 0
  {
    if piece.Braces? {
      PiecesAlone(piece.pieces, depth);
      AloneSum(AllPieces(piece.pieces, depth), [N(Close(false), depth)]);
      AloneSum([N(Open, depth)], AllPieces(piece.pieces, depth) + [N(Close(false), depth)]);
    }
  }

  lemma {:induction false} PiecesAlone(pieces: seq<Piece>, depth: nat)
    ensures Alone(AllPieces(pieces, depth))
    decreases pieces, 1
  {
    if |pieces| > 0 {
      PieceAlone(pieces[0], depth);
      PiecesAlone(pieces[1..], depth);
      AloneSum(PieceNotes(pieces[0], depth), AllPieces(pieces[1..], depth));
    }
  }

  lemma {:induction false} ItemAlone(item: Item, depth: nat, between: bool)
    ensures Alone(Annotate(item, depth, between))
    decreases item, 0
  {
    match item
    case Words =>
    case Space(gap) =>
    case Block(body, first) =>
      ItemsAlone(body, depth, false);
      AloneSum(AnnotateAll(body, depth, false), [N(Close(first), depth)]);
      AloneSum([N(Open, depth)], AnnotateAll(body, depth, false) + [N(Close(first), depth)]);
    case SwitchStmt(gaps, lead, clauses, last) =>
      var l, c, e := AnnotateAll(lead, depth, false), AnnotateClauses(clauses, depth), [SwitchEnd(clauses, last, depth)];
      HeadAlone(gaps, depth);
      ItemsAlone(lead, depth, false);
      ClausesAlone(clauses, depth);
      AloneSum(c, e);
      AloneSum(l, c + e);
      AloneSum(SwitchHead(gaps, depth), l + (c + e));
  }

  lemma {:induction false} HeadAlone(gaps: seq<Gap>, depth: nat)
    ensures Alone(SwitchHead(gaps, depth))
  {
    GapsAlone(gaps, depth, false);
    AloneSum(AllGaps(gaps, depth, false), [N(Open, depth)]);
    AloneSum([N(Switch, depth), N(Text, depth)], AllGaps(gaps, depth, false) + [N(Open, depth)]);
  }

  lemma {:induction false} ItemsAlone(items: seq<Item>, depth: nat, between: bool)
    ensures Alone(AnnotateAll(items, depth, between))
    decreases items, 1
  {
    if |items| > 0 {
      ItemAlone(items[0], depth, between);
      ItemsAlone(items[1..], depth, between);
      AloneSum(Annotate(items[0], depth, between), AnnotateAll(items[1..], depth, between));
    }
  }

  lemma {:induction false} OpeningAlone(opening: Opening, depth: nat)
    ensures Alone(OpeningNotes(opening, depth))
  {
    match opening
    case OneLine =>
    case Attached(pieces, levels, remark) =>
      var tail := BraceLineEnd(remark, depth);
      PiecesAlone(pieces, depth);
      OpensAlone(levels, depth);
      AloneSum(Opens(levels, depth), tail);
      AloneSum(AllPieces(pieces, depth), Opens(levels, depth) + tail);
      AloneSum([N(Label(Brace(false)), depth)], AllPieces(pieces, depth) + (Opens(levels, depth) + tail));
    case Apart(gaps) =>
      GapsAlone(gaps, depth, false);
      AloneSum(AllGaps(gaps, depth, false), [N(Open, depth + 1)]);
      AloneSum([N(Label(Nothing), depth)], AllGaps(gaps, depth, false) + [N(Open, depth + 1)]);
  }

  lemma {:induction false} OpensAlone(levels: seq<Level>, depth: nat)
    ensures Alone(Opens(levels, depth))
    decreases |levels|
  {
    if |levels| > 0 {
      var pieces, rest := AllPieces(levels[0].pieces, depth), Opens(levels[1..], depth);
      PiecesAlone(levels[0].pieces, depth);
      OpensAlone(levels[1..], depth);
      AloneSum(pieces, rest);
      AloneSum([N(Open, depth)], pieces + rest);
    }
  }

  lemma {:induction false} BodiesAlone(levels: seq<Level>, depth: nat)
    ensures Alone(Bodies(levels, depth))
    decreases levels, 2
  {
    if |levels| > 0 {
      var body, close := AnnotateAll(levels[0].body, depth, false), [N(Close(levels[0].closeFirst), depth)];
      BodiesAlone(levels[1..], depth);
      ItemsAlone(levels[0].body, depth, false);
      AloneSum(body, close);
      AloneSum(Bodies(levels[1..], depth), body + close);
    }
  }

  lemma {:induction false} ClauseAlone(c: Clause, depth: nat)
    ensures Alone(AnnotateClause(c, depth))
    decreases c, 0
  {
    var caseLabel := [N(Label(Nothing), depth)];
    match c
    case Bare(gaps) =>
      GapsAlone(gaps, depth, false);
      AloneSum(caseLabel, AllGaps(gaps, depth, false));
    case Plain(gaps, items) =>
      var body := FirstWord(items, depth) + AnnotateAll(items, depth, false);
      GapsAlone(gaps, depth, false);
      ItemsAlone(items, depth, false);
      AloneSum(FirstWord(items, depth), AnnotateAll(items, depth, false));
      AloneSum(AllGaps(gaps, depth, false), body);
      AloneSum(caseLabel, AllGaps(gaps, depth, false) + body);
    case Braced(opening, inner, closeFirst, after) =>
      var d := ClauseDepth(c, depth);
      var i, e, a := AnnotateAll(inner, d, false), [N(Close(closeFirst), d)], AnnotateAll(after, d, d > depth);
      OpeningAlone(opening, depth);
      ItemsAlone(inner, d, false);
      ItemsAlone(after, d, d > depth);
      AloneSum(e, a);
      AloneSum(i, e + a);
      if opening.Attached? {
        BodiesAlone(opening.levels, d);
      }
      AloneSum(BodiesOf(opening, d), i + (e + a));
      AloneSum(OpeningNotes(opening, depth), BodiesOf(opening, d) + (i + (e + a)));
  }

  lemma {:induction false} ClausesAlone(clauses: seq<Clause>, depth: nat)
    ensures Alone(AnnotateClauses(clauses, depth))
    decreases clauses, 1
  {
    if |clauses| > 0 {
      ClauseAlone(clauses[0], depth);
      ClausesAlone(clauses[1..], depth);
      AloneSum(AnnotateClause(clauses[0], depth), AnnotateClauses(clauses[1..], depth));
    }
  }

  lemma {:induction false} AloneStandsApart(line: Line, depth: nat, notes: seq<Note>, i: nat)
    requires Alone(notes) && NoBlockComment(notes) && i <= |notes|
    requires i > 0 && notes[i - 1].tok.LineStart? ==> line == EMPTY_LINE
    requires line.marked ==> line.due.None? && i < |notes| && notes[i].tok.LineStart?
    ensures CommentsStandApart(line, depth, notes[i..])
    decreases |notes| - i
  {
    if i < |notes| {
      assert notes[i..][0] == notes[i] && notes[i..][1..] == notes[i + 1..];
      AloneStandsApart(Next(line, notes[i]), notes[i].depth, notes, i + 1);
    }
  }

  /**
   A comment to the end of its line moves no line: without block comments, and where no
   line changes its depth, every line of a text comes out right.
   */
  lemma {:induction false} LineCommentsMoveNothing(items: seq<Item>)
    requires LevelLines(EMPTY_LINE, 0, AnnotateAll(items, 0, false)) && NoBlockComment(AnnotateAll(items, 0, false))
    ensures var notes := AnnotateAll(items, 0, false);
            LineAmounts(BeginLine(INITIAL, false), Tokens(notes)) == LineDepths(EMPTY_LINE, 0, notes)
  {
    var notes := AnnotateAll(items, 0, false);
    ItemsAlone(items, 0, false);
    assert notes[0..] == notes;
    AloneStandsApart(EMPTY_LINE, 0, notes, 0);
    CommentsMoveLines(items);
  }

  // ---------------------------------------------------------------------
  // A switch on the line of a brace
  // ---------------------------------------------------------------------

  /** A label with its brace, a switch with its brace on the same line, then its clauses and its end. */
  function SwitchOnBraceLine(clauses: seq<Clause>, last: bool, depth: nat): seq<Note>
  {
    [N(Label(Brace(false)), depth)]
    + ([N(Switch, depth), N(Text, depth), N(Open, depth), N(LineStart(false), depth + 1)]
       + (AnnotateClauses(clauses, depth) + [SwitchEnd(clauses, last, depth)]))
  }

  lemma {:induction false} RunsInnerHead(st: State, line: Line, depth: nat) returns (end: State, endLine: Line)
    requires OnBraceLine(st, line, depth)
    ensures Follows(st, line, [N(Switch, depth), N(Text, depth), N(Open, depth), N(LineStart(false), depth + 1)], end, endLine)
    ensures InClauses(end, endLine, depth) && end.switchStack == st.switchStack + [st.sw] && end.braceCount == st.braceCount + 1
  {
    var n1, n2, n3, n4 := N(Switch, depth), N(Text, depth), N(Open, depth), N(LineStart(false), depth + 1);
    var st1, line1 := Step(st, n1.tok), Next(line, n1);
    var st2, line2 := Step(st1, n2.tok), Next(line1, n2);
    var st3, line3 := Step(st2, n3.tok), Next(line2, n3);
    end, endLine := Step(st3, n4.tok), EMPTY_LINE;
    One(st, line, n1);
    One(st1, line1, n2);
    One(st2, line2, n3);
    One(st3, line3, n4);
    Join(st2, line2, [n3], st3, line3, [n4], end, endLine);
    Join(st1, line1, [n2], st2, line2, [n3] + [n4], end, endLine);
    Join(st, line, [n1], st1, line1, [n2] + ([n3] + [n4]), end, endLine);
    assert [n1] + ([n2] + ([n3] + [n4])) == [n1, n2, n3, n4];
  }

  /**
   The inner switch takes the unindent that the block behind the label is waiting for: its
   clauses are unindented as if they stood in no block, and what follows in the block is
   not unindented at all.
   */
  lemma {:induction false} InnerSwitchTakesTheUnindent(st: State, line: Line, clauses: seq<Clause>, last: bool, depth: nat)
      returns (end: State, endLine: Line)
    requires InClauses(st, line, depth) && |clauses| > 0
    ensures Follows(st, line, SwitchOnBraceLine(clauses, last, depth), end, endLine)
    ensures InBlock(end, endLine, depth, false, 0) && end.switchStack == st.switchStack && end.braceCount == st.braceCount + 1
  {
    var caseLabel, end1 := N(Label(Brace(false)), depth), SwitchEnd(clauses, last, depth);
    var head := [N(Switch, depth), N(Text, depth), N(Open, depth), N(LineStart(false), depth + 1)];
    var st1, line1 := Step(st, caseLabel.tok), Next(line, caseLabel);
    One(st, line, caseLabel);
    var st2, line2 := RunsInnerHead(st1, line1, depth);
    var st3, line3 := RunsClauses(st2, line2, clauses, depth);
    end, endLine := Step(st3, end1.tok), Next(line3, end1);
    RunsSwitchEnd(st1, st3, line3, clauses, last, depth);
    Join(st2, line2, AnnotateClauses(clauses, depth), st3, line3, [end1], end, endLine);
    Join(st1, line1, head, st2, line2, AnnotateClauses(clauses, depth) + [end1], end, endLine);
    Join(st, line, [caseLabel], st1, line1, head + (AnnotateClauses(clauses, depth) + [end1]), end, endLine);
  }
}
