/**
 The indent of a line: ASBeautifier counts the header stack, corrects the count
 while it parses the line, and moves a line that begins with a brace.
 */
module LineIndent {
  import opened Stacks
  import opened HeaderStack

  /** The line-scoped fields; `first` is the token that opens the line. */
  datatype LineState = LineState(first: Option<Kind>, indentCount: int, closingBraceReached: bool,
                                 openings: nat, closings: nat, prelimSize: nat, extraHeaderIndent: bool)

  datatype State = State(stacks: StackState, lastLineHeader: Option<Entry>, line: LineState)

  const FRESH := State(INITIAL, None, LineState(None, 0, false, 0, 0, 0, false))

  /** A brace owned by a header adds nothing to the header's own indent. */
  predicate Owned(headers: seq<Entry>)
  {
    |headers| > 0 && Top(headers) != OpenBrace
  }

  function Preliminary(headers: seq<Entry>): nat
  {
    if |headers| == 0 then 0
    else Preliminary(Pop(headers)) + (if Top(headers) == OpenBrace && Owned(Pop(headers)) then 0 else 1)
  }

  function BeginLine(st: State, kind: Kind): State
  {
    var headers := st.stacks.headers;
    st.(lastLineHeader := None,
        line := LineState(Some(kind), Preliminary(headers), false, 0, 0, |headers|, kind == Open && Owned(headers)))
  }

  function ParseToken(st: State, kind: Kind): State
  {
    var line := st.line;
    var t := Token(false, kind);
    State(StackStep(st.stacks, st.lastLineHeader, kind), NextLineHeader(st.lastLineHeader, t),
          match kind
          case Head(h) =>
            line.(indentCount := line.indentCount + if line.closingBraceReached then 0 else RestackSize(st.stacks, h))
          case Open => line.(openings := line.openings + 1)
          case Close => line.(closings := line.closings + 1, closingBraceReached := true)
          case Semi => line)
  }

  function Step(st: State, t: Token): State
  {
    ParseToken(if t.newLine || st.line.first.None? then BeginLine(st, t.kind) else st, t.kind)
  }

  predicate OneLineBlock(line: LineState)
  {
    0 < line.openings <= line.closings
  }

  predicate HeaderAt(headers: seq<Entry>, fromTop: nat)
  {
    |headers| >= fromTop && fromTop > 0 && headers[|headers| - fromTop] != OpenBrace
  }

  /** What the end of the line takes from `indentCount` for its leading brace. */
  function BraceAdjustment(headers: seq<Entry>, line: LineState): nat
  {
    if line.first == Some(Open) then
      if |headers| < line.prelimSize && line.extraHeaderIndent && OneLineBlock(line) then 1
      else if !OneLineBlock(line) && HeaderAt(headers, 2) then 1
      else if |headers| > line.prelimSize + 1 && !OneLineBlock(line) && HeaderAt(headers, 3) then 1
      else 0
    else if line.first == Some(Close) then 1
    else 0
  }

  function LineIndent(st: State): int
  {
    st.line.indentCount - BraceAdjustment(st.stacks.headers, st.line)
  }

  function FinalIndent(st: State): nat
  {
    if LineIndent(st) < 0 then 0 else LineIndent(st)
  }

  function Steps(st: State, toks: seq<Token>): State
    decreases |toks|
  {
    if |toks| == 0 then st else Steps(Step(st, toks[0]), toks[1..])
  }

  /** How many tokens stand on the first line. */
  function LineLength(toks: seq<Token>): (n: nat)
    requires |toks| > 0
    ensures 0 < n <= |toks|
  {
    if |toks| == 1 || toks[1].newLine then 1 else 1 + LineLength(toks[1..])
  }

  /** The indent of each line, settled at its end. */
  function Indents(st: State, toks: seq<Token>): seq<int>
    decreases |toks|
  {
    if |toks| == 0 then []
    else
      var n := LineLength(toks);
      var end := Steps(st, toks[..n]);
      [FinalIndent(end)] + Indents(end, toks[n..])
  }

  function FirstLine(notes: seq<Note>): (r: seq<Note>)
    requires |notes| > 0
    ensures 0 < |r| <= |notes| && r == notes[..|r|]
  {
    notes[..LineLength(Tokens(notes))]
  }

  /** The depth of the token that opens each line. */
  function LineDepths(notes: seq<Note>): seq<int>
    decreases |notes|
  {
    if |notes| == 0 then [] else [notes[0].depth] + LineDepths(notes[|FirstLine(notes)|..])
  }

  // ---------------------------------------------------------------------
  // Which lines come out right
  // ---------------------------------------------------------------------

  /** The headers that tokens put back before any closing brace. */
  function PutBack(before: seq<Entry>, notes: seq<Note>): nat
    decreases |notes|
  {
    if |notes| == 0 || notes[0].tok.kind == Close then 0
    else
      var path := notes[0].path;
      (if |path| > |before| + 1 then |path| - |before| - 1 else 0) + PutBack(path, notes[1..])
  }

  function Count(kind: Kind, notes: seq<Note>): nat
  {
    if |notes| == 0 then 0 else (if notes[0].tok.kind == kind then 1 else 0) + Count(kind, notes[1..])
  }

  /**
   Is a line that opens with a brace moved one indent to the left? If it closes all
   the blocks it opens, only when the brace ends the statement of a header; if not,
   when a header stands just outside the innermost brace or header of the line's
   end, or outside the second of two or more that the line adds.
   */
  predicate MovesLeft(before: seq<Entry>, line: seq<Note>)
    requires |line| > 0
  {
    var end := Top(line).path;
    if Count(Open, line) <= Count(Close, line) then Owned(before) && |end| < |before|
    else HeaderAt(end, 2) || (|end| > |before| + 1 && HeaderAt(end, 3))
  }

  /**
   A line stands at the depth of its first token. After an opening brace it has to
   be moved left exactly when a header owns the brace, once for each header put back
   on it besides; a line already at the margin stays there. Other lines must not put
   headers back after their first token.
   */
  predicate LineFits(before: seq<Entry>, line: seq<Note>)
    requires |line| > 0
  {
    var putBack := PutBack(line[0].path, line[1..]);
    match line[0].tok.kind
    case Close => true
    case Open =>
      var due := putBack + if Owned(before) then 1 else 0;
      var moved := if MovesLeft(before, line) then 1 else 0;
      moved == due || (moved > due && line[0].depth == 0)
    case _ => putBack == 0
  }

  predicate LinesFit(before: seq<Entry>, notes: seq<Note>)
    decreases |notes|
  {
    |notes| == 0 ||
    var line := FirstLine(notes);
    LineFits(before, line) && LinesFit(Top(line).path, notes[|line|..])
  }

  /** The depth of a note is what the header stack before it says. */
  predicate DepthFits(before: seq<Entry>, n: Note)
  {
    match n.tok.kind
    case Head(h) =>
      if |n.path| == |before| then h == If && !n.tok.newLine
      else |n.path| > |before| && n.depth == Preliminary(before) + |n.path| - |before| - 1
    case Open => n.depth == Preliminary(before) - (if Owned(before) then 1 else 0)
    case Close => n.depth == Preliminary(before) - 1
    case Semi => n.depth == Preliminary(before)
  }

  /** All depths fit, and the notes lead from the path `before` to the path `after`. */
  predicate DepthsFit(before: seq<Entry>, notes: seq<Note>, after: seq<Entry>)
    decreases |notes|
  {
    if |notes| == 0 then before == after
    else DepthFits(before, notes[0]) && DepthsFit(notes[0].path, notes[1..], after)
  }

  lemma {:induction false} DepthsFitConcat(before: seq<Entry>, a: seq<Note>, mid: seq<Entry>, b: seq<Note>, after: seq<Entry>)
    requires DepthsFit(before, a, mid) && DepthsFit(mid, b, after)
    ensures DepthsFit(before, a + b, after)
    decreases |a|
  {
    if |a| == 0 {
      assert a + b == b;
    } else {
      assert (a + b)[1..] == a[1..] + b;
      DepthsFitConcat(a[0].path, a[1..], mid, b, after);
    }
  }

  lemma {:induction false} PreliminaryOfChain(path: seq<Entry>)
    ensures Preliminary(path) == Preliminary(BlockPath(path)) + |path| - |BlockPath(path)|
  {
    if |path| > 0 && Top(path) != OpenBrace {
      PreliminaryOfChain(Pop(path));
    }
  }

  lemma {:induction false} PreliminaryPush(path: seq<Entry>, e: Entry)
    ensures Preliminary(path + [e]) == Preliminary(path) + (if e == OpenBrace && Owned(path) then 0 else 1)
  {
    assert Pop(path + [e]) == path;
  }

  lemma {:induction false} OneDepthFits(before: seq<Entry>, n: Note)
    requires DepthFits(before, n)
    ensures DepthsFit(before, [n], n.path)
  {
    assert [n][1..] == [];
  }

  lemma {:induction false} LeadDepthFits(before: seq<Entry>, n: Note, rest: seq<Note>, after: seq<Entry>)
    requires DepthFits(before, n) && DepthsFit(n.path, rest, after)
    ensures DepthsFit(before, [n] + rest, after)
  {
    OneDepthFits(before, n);
    DepthsFitConcat(before, [n], n.path, rest, after);
  }

  /** The depth handed to a statement is the preliminary indent of its path. */
  predicate Level(s: Stmt, path: seq<Entry>, depth: nat)
  {
    Preliminary(path) == if s.Block? && Owned(path) then depth + 1 else depth
  }

  lemma {:induction false} DepthsOfStmt(s: Stmt, path: seq<Entry>, depth: nat)
    requires Level(s, path, depth)
    ensures DepthsFit(path, Annotate(s, path, depth), BlockPath(path))
    decreases s, 3
  {
    match s
    case Simple(nl) => OneDepthFits(path, Note(Token(nl, Semi), BlockPath(path), depth));
    case Block(_, _, _) => DepthsOfBlock(s, path, depth);
    case Loop(_, _, _) => DepthsOfLoop(s, path, depth);
    case DoWhile(_, _, _) => DepthsOfDoWhile(s, path, depth);
    case _ =>
      DepthsOfRest(s, path, depth);
      LeadDepthFits(path, Note(Token(s.nl, Head(If)), path + [If], depth), AnnotateRest(s, path, depth), BlockPath(path));
  }

  lemma {:induction false} DepthsOfLoop(s: Stmt, path: seq<Entry>, depth: nat)
    requires s.Loop? && Level(s, path, depth)
    ensures DepthsFit(path, Annotate(s, path, depth), BlockPath(path))
    decreases s, 2
  {
    DepthsOfBody(s.loopBody, path, s.h, depth);
    LeadDepthFits(path, Note(Token(s.nl, Head(s.h)), path + [s.h], depth),
                  Annotate(s.loopBody, path + [s.h], BodyDepth(s.loopBody, depth)), BlockPath(path));
  }

  lemma {:induction false} DepthsOfBody(body: Stmt, path: seq<Entry>, h: Entry, depth: nat)
    requires h != OpenBrace && Preliminary(path) == depth
    ensures DepthsFit(path + [h], Annotate(body, path + [h], BodyDepth(body, depth)), BlockPath(path))
    decreases body, 4
  {
    PreliminaryPush(path, h);
    DepthsOfStmt(body, path + [h], BodyDepth(body, depth));
    BlockPathExtend(path, [h]);
  }

  lemma {:induction false} DepthsOfBlock(s: Stmt, path: seq<Entry>, depth: nat)
    requires s.Block? && Level(s, path, depth)
    ensures DepthsFit(path, Annotate(s, path, depth), BlockPath(path))
    decreases s, 2
  {
    var inner := path + [OpenBrace];
    var close := Note(Token(s.nlClose, Close), BlockPath(path), depth);
    var body := AnnotateAll(s.body, inner, depth + 1);
    PreliminaryPush(path, OpenBrace);
    DepthsOfAll(s.body, inner, depth + 1);
    OneDepthFits(inner, close);
    DepthsFitConcat(inner, body, inner, [close], BlockPath(path));
    LeadDepthFits(path, Note(Token(s.nl, Open), inner, depth), body + [close], BlockPath(path));
  }

  lemma {:induction false} DepthsOfAll(ss: seq<Stmt>, path: seq<Entry>, depth: nat)
    requires Preliminary(path) == depth && BlockPath(path) == path
    ensures DepthsFit(path, AnnotateAll(ss, path, depth), path)
    decreases ss, 4
  {
    if |ss| > 0 {
      assert !Owned(path);
      DepthsOfStmt(ss[0], path, depth);
      DepthsOfAll(ss[1..], path, depth);
      DepthsFitConcat(path, Annotate(ss[0], path, depth), path, AnnotateAll(ss[1..], path, depth), path);
    }
  }

  lemma {:induction false} DepthsOfDoWhile(s: Stmt, path: seq<Entry>, depth: nat)
    requires s.DoWhile? && Level(s, path, depth)
    ensures DepthsFit(path, Annotate(s, path, depth), BlockPath(path))
    decreases s, 2
  {
    var body := Annotate(s.doBody, path + [Do], BodyDepth(s.doBody, depth));
    var w := AnnotateWhile(s.nlWhile, path, depth);
    DepthsOfBody(s.doBody, path, Do, depth);
    DepthsOfWhile(s.nlWhile, path, depth);
    DepthsFitConcat(path + [Do], body, BlockPath(path), w, BlockPath(path));
    LeadDepthFits(path, Note(Token(s.nl, Head(Do)), path + [Do], depth), body + w, BlockPath(path));
  }

  lemma {:induction false} DepthsOfWhile(nlWhile: bool, path: seq<Entry>, depth: nat)
    requires Preliminary(path) == depth
    ensures DepthsFit(BlockPath(path), AnnotateWhile(nlWhile, path, depth), BlockPath(path))
  {
    var w := AnnotateWhile(nlWhile, path, depth);
    PreliminaryOfChain(path);
    PreliminaryPush(path, While);
    OneDepthFits(path + [While], w[1]);
    assert w[1..] == [w[1]];
  }

  lemma {:induction false} DepthsOfRest(s: Stmt, path: seq<Entry>, depth: nat)
    requires StartsWithIf(s) && Preliminary(path) == depth
    ensures DepthsFit(path + [If], AnnotateRest(s, path, depth), BlockPath(path))
    decreases s, 2
  {
    DepthsOfBody(s.thn, path, If, depth);
    if s.IfElse? {
      var e := Note(Token(s.nlElse, Head(Else)), path + [Else], depth);
      var rest := AnnotateElsePart(s.els, path, depth);
      DepthsOfElse(s.els, e, path, depth);
      DepthsFitConcat(path + [If], Annotate(s.thn, path + [If], BodyDepth(s.thn, depth)), BlockPath(path),
                      [e] + rest, BlockPath(path));
    }
  }

  lemma {:induction false} DepthsOfElse(els: Stmt, e: Note, path: seq<Entry>, depth: nat)
    requires Preliminary(path) == depth
    requires e.tok.kind == Head(Else) && e.path == path + [Else] && e.depth == depth
    ensures DepthsFit(BlockPath(path), [e] + AnnotateElsePart(els, path, depth), BlockPath(path))
    decreases els, 6
  {
    PreliminaryOfChain(path);
    DepthsOfElsePart(els, path, depth);
    LeadDepthFits(BlockPath(path), e, AnnotateElsePart(els, path, depth), BlockPath(path));
  }

  lemma {:induction false} DepthsOfElsePart(els: Stmt, path: seq<Entry>, depth: nat)
    requires Preliminary(path) == depth
    ensures DepthsFit(path + [Else], AnnotateElsePart(els, path, depth), BlockPath(path))
    decreases els, 5
  {
    if Collapsed(els) {
      DepthsOfRest(els, path, depth);
      LeadDepthFits(path + [Else], Note(Token(false, Head(If)), path + [If], depth),
                    AnnotateRest(els, path, depth), BlockPath(path));
    } else {
      DepthsOfBody(els, path, Else, depth);
    }
  }

  lemma {:induction false} RestackLength(headers: seq<Entry>, temp: seq<Entry>, n: nat)
    requires n <= |temp|
    ensures |Restack(headers, temp, n).0| == |headers| + n
    decreases n
  {
    if n > 0 {
      RestackLength(headers + [Top(temp)], Pop(temp), n - 1);
    }
  }

  /** A header lengthens the stack by what it restacks and itself. */
  lemma {:induction false} HeaderGrowth(k: StackState, last: Option<Entry>, h: Keyword)
    requires MeetHeader(k, last, h).defined && k.defined
    ensures |MeetHeader(k, last, h).headers| ==
            |k.headers| + (if h == If && last == Some(Else) then 0 else 1 + RestackSize(k, h))
  {
    if RestackSize(k, h) > 0 {
      RestackLength(k.headers, Top(k.temps), RestackSize(k, h));
    }
  }

  /** One token of a line, after its first: only a header that puts others back changes the indent. */
  lemma {:induction false} IndentStep(st: State, n: Note)
    requires st.stacks.defined && st.line.first.Some? && !n.tok.newLine
    requires Observe(StackStep(st.stacks, st.lastLineHeader, n.tok.kind)) == Some(n.path)
    ensures var st' := Step(st, n.tok);
            st'.stacks.headers == n.path && st'.stacks.defined &&
            st'.lastLineHeader == NextLineHeader(st.lastLineHeader, n.tok) &&
            st'.line == st.line.(
              indentCount := st.line.indentCount + if st.line.closingBraceReached then 0 else PutBack(st.stacks.headers, [n]),
              closingBraceReached := st.line.closingBraceReached || n.tok.kind == Close,
              openings := st.line.openings + Count(Open, [n]), closings := st.line.closings + Count(Close, [n]))
  {
    assert [n][1..] == [];
    match n.tok.kind
    case Head(h) => HeaderGrowth(st.stacks, st.lastLineHeader, h);
    case Open =>
    case Close => CloseShrinks(st.stacks);
    case Semi => EndShrinks(st.stacks);
  }

  /** The first token of a line. */
  lemma {:induction false} LineStep(st: State, n: Note)
    requires st.stacks.defined && DepthFits(st.stacks.headers, n)
    requires n.tok.newLine || (st.line.first.None? && (n.tok.kind == Head(If) ==> |n.path| != |st.stacks.headers|))
    requires Observe(StackStep(st.stacks, None, n.tok.kind)) == Some(n.path)
    ensures var st', headers := Step(st, n.tok), st.stacks.headers;
            st'.stacks.headers == n.path && st'.stacks.defined &&
            st'.lastLineHeader == NextLineHeader(None, n.tok) &&
            st'.line == LineState(Some(n.tok.kind), Preliminary(headers) + PutBack(headers, [n]), n.tok.kind == Close,
                                  Count(Open, [n]), Count(Close, [n]), |headers|, n.tok.kind == Open && Owned(headers)) &&
            n.depth == Preliminary(headers) + PutBack(headers, [n])
                       - if n.tok.kind == Close || (n.tok.kind == Open && Owned(headers)) then 1 else 0
  {
    assert [n][1..] == [];
    match n.tok.kind
    case Head(h) => HeaderGrowth(st.stacks, None, h);
    case Open =>
    case Close => CloseShrinks(st.stacks);
    case Semi => EndShrinks(st.stacks);
  }

  lemma {:induction false} SnapshotShrinks(headers: seq<Entry>, temp: seq<Entry>)
    ensures |Snapshot(headers, temp).0| <= |headers|
    decreases |headers|
  {
    if |headers| > 0 && Top(headers) != OpenBrace {
      SnapshotShrinks(Pop(headers), temp + [Top(headers)]);
    }
  }

  lemma {:induction false} EndShrinks(k: StackState)
    ensures |EndStatement(k).headers| <= |k.headers|
  {
    SnapshotShrinks(k.headers, []);
  }

  lemma {:induction false} PopBlockShrinks(headers: seq<Entry>)
    requires OpenBrace in headers
    ensures |PopBlock(headers)| < |headers|
  {
    if Top(headers) != OpenBrace {
      PopBlockShrinks(Pop(headers));
    }
  }

  lemma {:induction false} CloseShrinks(k: StackState)
    ensures |CloseBlock(k).headers| <= |k.headers|
  {
    if OpenBrace in k.headers {
      PopBlockShrinks(k.headers);
      EndShrinks(k.(headers := PopBlock(k.headers), temps := if |k.temps| == 0 then k.temps else Pop(k.temps)));
    } else {
      EndShrinks(k);
    }
  }

  lemma {:induction false} OnOneLine(toks: seq<Token>, i: nat)
    requires |toks| > 0 && 0 < i < LineLength(toks)
    ensures !toks[i].newLine
  {
    if i > 1 {
      OnOneLine(toks[1..], i - 1);
    }
  }

  lemma {:induction false} NextLineLeads(toks: seq<Token>)
    requires |toks| > 0 && LineLength(toks) < |toks|
    ensures toks[LineLength(toks)].newLine
  {
    if !toks[1].newLine {
      NextLineLeads(toks[1..]);
    }
  }

  /** The rest of a line, after its first token. */
  lemma {:induction false} RunsRest(st: State, notes: seq<Note>)
    requires st.stacks.defined && st.line.first.Some?
    requires forall n :: n in notes ==> !n.tok.newLine
    requires Trace(st.stacks, st.lastLineHeader, Tokens(notes)) == Paths(notes)
    ensures var end := Steps(st, Tokens(notes));
            end.stacks == Run(st.stacks, st.lastLineHeader, Tokens(notes)) && end.stacks.defined &&
            end.stacks.headers == (if |notes| == 0 then st.stacks.headers else Top(notes).path) &&
            end.lastLineHeader == LineHeaderAfter(st.lastLineHeader, Tokens(notes)) &&
            end.line == st.line.(
              indentCount := st.line.indentCount + if st.line.closingBraceReached then 0 else PutBack(st.stacks.headers, notes),
              closingBraceReached := st.line.closingBraceReached || Count(Close, notes) > 0,
              openings := st.line.openings + Count(Open, notes), closings := st.line.closings + Count(Close, notes))
    decreases |notes|
  {
    if |notes| > 0 {
      var n, toks := notes[0], Tokens(notes);
      var st' := Step(st, n.tok);
      TraceStep(st.stacks, st.lastLineHeader, notes);
      assert n in notes;
      IndentStep(st, n);
      RunsRest(st', notes[1..]);
      assert toks[0] == n.tok && toks[1..] == Tokens(notes[1..]);
      CountsApart(st.stacks.headers, n, notes);
    }
  }

  lemma {:induction false} CountsApart(before: seq<Entry>, n: Note, notes: seq<Note>)
    requires |notes| > 0 && notes[0] == n
    ensures PutBack(before, notes) == PutBack(before, [n]) + if n.tok.kind == Close then 0 else PutBack(n.path, notes[1..])
    ensures Count(Open, notes) == Count(Open, [n]) + Count(Open, notes[1..])
    ensures Count(Close, notes) == Count(Close, [n]) + Count(Close, notes[1..])
  {
    assert [n][1..] == [];
  }

  lemma {:induction false} TraceStep(k: StackState, last: Option<Entry>, notes: seq<Note>)
    requires |notes| > 0 && Trace(k, last, Tokens(notes)) == Paths(notes)
    ensures var t := notes[0].tok;
            var next := StackStep(k, LineHeader(last, t), t.kind);
            Observe(next) == Some(notes[0].path) &&
            Trace(next, NextLineHeader(last, t), Tokens(notes[1..])) == Paths(notes[1..])
  {
    var toks := Tokens(notes);
    assert toks[0] == notes[0].tok && toks[1..] == Tokens(notes[1..]);
    assert Paths(notes)[0] == Some(notes[0].path) && Paths(notes)[1..] == Paths(notes[1..]);
    assert Trace(k, last, toks)[0] == Some(notes[0].path);
    assert Trace(k, last, toks)[1..] == Paths(notes[1..]);
  }

  predicate StartsWell(st: State, line: seq<Note>)
  {
    |line| > 0 && st.stacks.defined && DepthFits(st.stacks.headers, line[0]) &&
    (line[0].tok.newLine || (st.line.first.None? && st.lastLineHeader == None &&
                             (line[0].tok.kind == Head(If) ==> |line[0].path| != |st.stacks.headers|))) &&
    (forall i :: 0 < i < |line| ==> !line[i].tok.newLine) &&
    Trace(st.stacks, st.lastLineHeader, Tokens(line)) == Paths(line)
  }

  /** What is known of a line when its last token is done. */
  predicate LineEnds(before: seq<Entry>, end: State, line: seq<Note>)
  {
    |line| > 0 && end.stacks.headers == Top(line).path &&
    var n := line[0];
    var rest := if n.tok.kind == Close then 0 else PutBack(n.path, line[1..]);
    end.line == LineState(Some(n.tok.kind), Preliminary(before) + PutBack(before, [n]) + rest, Count(Close, line) > 0,
                          Count(Open, line), Count(Close, line), |before|, n.tok.kind == Open && Owned(before)) &&
    n.depth == Preliminary(before) + PutBack(before, [n])
               - if n.tok.kind == Close || (n.tok.kind == Open && Owned(before)) then 1 else 0
  }

  lemma {:induction false} LineRuns(st: State, line: seq<Note>)
    requires StartsWell(st, line)
    ensures var end := Steps(st, Tokens(line));
            end.stacks == Run(st.stacks, st.lastLineHeader, Tokens(line)) && end.stacks.defined &&
            end.lastLineHeader == LineHeaderAfter(st.lastLineHeader, Tokens(line)) && LineEnds(st.stacks.headers, end, line)
  {
    var n, toks := line[0], Tokens(line);
    var st1 := Step(st, n.tok);
    TraceStep(st.stacks, st.lastLineHeader, line);
    LineStep(st, n);
    RunsRest(st1, line[1..]);
    assert toks[0] == n.tok && toks[1..] == Tokens(line[1..]);
    CountsApart(st.stacks.headers, n, line);
  }

  /** A whole line: where it ends, and whether it stands at the depth of its first token. */
  lemma {:induction false} RunsLine(st: State, line: seq<Note>)
    requires StartsWell(st, line)
    ensures var end := Steps(st, Tokens(line));
            end.stacks == Run(st.stacks, st.lastLineHeader, Tokens(line)) && end.stacks.defined &&
            end.stacks.headers == Top(line).path &&
            end.lastLineHeader == LineHeaderAfter(st.lastLineHeader, Tokens(line)) && end.line.first.Some? &&
            (FinalIndent(end) == line[0].depth <==> LineFits(st.stacks.headers, line))
  {
    LineRuns(st, line);
    LineComesOut(st.stacks.headers, Steps(st, Tokens(line)), line);
  }

  lemma {:induction false} LineComesOut(before: seq<Entry>, end: State, line: seq<Note>)
    requires LineEnds(before, end, line)
    ensures FinalIndent(end) == line[0].depth <==> LineFits(before, line)
  {
    if line[0].tok.kind == Open {
      assert Count(Open, line) > 0;
      assert BraceAdjustment(end.stacks.headers, end.line) == if MovesLeft(before, line) then 1 else 0;
    }
  }

  lemma {:induction false} FirstLineTokens(notes: seq<Note>)
    requires |notes| > 0
    ensures var line := FirstLine(notes);
            Tokens(notes)[..|line|] == Tokens(line) && Tokens(notes)[|line|..] == Tokens(notes[|line|..]) &&
            forall i :: 0 < i < |line| ==> !line[i].tok.newLine
  {
    var line := FirstLine(notes);
    forall i | 0 < i < |line| ensures !line[i].tok.newLine {
      OnOneLine(Tokens(notes), i);
    }
    assert notes == line + notes[|line|..];
    TokensConcat(line, notes[|line|..]);
  }

  lemma {:induction false} IndentsFollow(st: State, notes: seq<Note>, after: seq<Entry>)
    requires st.stacks.defined && DepthsFit(st.stacks.headers, notes, after)
    requires Trace(st.stacks, st.lastLineHeader, Tokens(notes)) == Paths(notes)
    requires |notes| > 0 && !notes[0].tok.newLine ==>
               st.line.first.None? && st.lastLineHeader == None &&
               (notes[0].tok.kind == Head(If) ==> |notes[0].path| != |st.stacks.headers|)
    ensures Indents(st, Tokens(notes)) == LineDepths(notes) <==> LinesFit(st.stacks.headers, notes)
    decreases |notes|
  {
    if |notes| > 0 {
      var toks, line := Tokens(notes), FirstLine(notes);
      var n := |line|;
      var rest := notes[n..];
      SplitsAt(st, notes, n, after);
      FirstLineTokens(notes);
      RunsLine(st, line);
      var end := Steps(st, Tokens(line));
      if |rest| > 0 {
        NextLineLeads(toks);
      }
      IndentsFollow(end, rest, after);
      assert Indents(st, toks)[0] == FinalIndent(end) && Indents(st, toks)[1..] == Indents(end, Tokens(rest));
      assert LineDepths(notes)[0] == line[0].depth && LineDepths(notes)[1..] == LineDepths(rest);
    }
  }

  lemma {:induction false} SplitsAt(st: State, notes: seq<Note>, n: nat, after: seq<Entry>)
    requires 0 < n <= |notes| && DepthsFit(st.stacks.headers, notes, after)
    requires Trace(st.stacks, st.lastLineHeader, Tokens(notes)) == Paths(notes)
    ensures var a, b := notes[..n], notes[n..];
            Trace(st.stacks, st.lastLineHeader, Tokens(a)) == Paths(a) &&
            Trace(Run(st.stacks, st.lastLineHeader, Tokens(a)), LineHeaderAfter(st.lastLineHeader, Tokens(a)), Tokens(b)) == Paths(b) &&
            DepthsFit(Top(a).path, b, after)
  {
    var a, b := notes[..n], notes[n..];
    var ta, tb := Tokens(a), Tokens(b);
    assert notes == a + b;
    TokensConcat(a, b);
    RunConcat(st.stacks, st.lastLineHeader, ta, tb);
    var whole := Trace(st.stacks, st.lastLineHeader, ta + tb);
    assert whole[..n] == Trace(st.stacks, st.lastLineHeader, ta) && Paths(a + b)[..n] == Paths(a);
    assert whole[n..] == Paths(b);
    DepthsFitFrom(st.stacks.headers, notes, n, after);
  }

  lemma {:induction false} DepthsFitFrom(before: seq<Entry>, notes: seq<Note>, n: nat, after: seq<Entry>)
    requires 0 < n <= |notes| && DepthsFit(before, notes, after)
    ensures DepthsFit(notes[n - 1].path, notes[n..], after)
    decreases n
  {
    if n > 1 {
      DepthsFitFrom(notes[0].path, notes[1..], n - 1, after);
      assert notes[1..][n - 1..] == notes[n..];
    }
  }

  /**
   The indents of a whole program: every line stands at the depth of the token that
   opens it if and only if each line fits.
   */
  lemma {:induction false} IndentsAreDepths(program: seq<Stmt>)
    requires forall s :: s in program ==> WellFormed(s)
    requires ElsesAreFresh(Tokens(AnnotateAll(program, [], 0)))
    ensures var notes := AnnotateAll(program, [], 0);
            Indents(FRESH, Tokens(notes)) == LineDepths(notes) <==> LinesFit([], notes)
  {
    var notes := AnnotateAll(program, [], 0);
    HeadersArePaths(program, notes);
    DepthsOfAll(program, [], 0);
    if |program| > 0 {
      FirstNoteGrows(program[0]);
      assert notes[0] == Annotate(program[0], [], 0)[0];
    }
    IndentsFollow(FRESH, notes, []);
  }

  lemma {:induction false} FirstNoteGrows(s: Stmt)
    ensures var n := Annotate(s, [], 0)[0]; n.tok.kind != Head(If) || |n.path| == 1
  {
  }

  // ---------------------------------------------------------------------
  // Lines that open with a brace
  // ---------------------------------------------------------------------

  lemma {:induction false} CountConcat(kind: Kind, a: seq<Note>, b: seq<Note>)
    ensures Count(kind, a + b) == Count(kind, a) + Count(kind, b)
    decreases |a|
  {
    if |a| == 0 {
      assert a + b == b;
    } else {
      assert (a + b)[1..] == a[1..] + b;
      CountConcat(kind, a[1..], b);
    }
  }

  lemma {:induction false} CountOne(kind: Kind, n: Note)
    ensures Count(kind, [n]) == if n.tok.kind == kind then 1 else 0
  {
    assert [n][1..] == [];
  }

  predicate Even(notes: seq<Note>)
  {
    Count(Open, notes) == Count(Close, notes)
  }

  lemma {:induction false} EvenConcat(a: seq<Note>, b: seq<Note>)
    requires Even(a) && Even(b)
    ensures Even(a + b)
  {
    CountConcat(Open, a, b);
    CountConcat(Close, a, b);
  }

  lemma {:induction false} EvenHeader(n: Note, rest: seq<Note>)
    requires n.tok.kind.Head? && Even(rest)
    ensures Even([n] + rest)
  {
    assert ([n] + rest)[1..] == rest;
  }

  /** Statements close the blocks they open. */
  lemma {:induction false} StatementIsEven(s: Stmt, path: seq<Entry>, depth: nat)
    ensures Even(Annotate(s, path, depth))
    decreases s, 1
  {
    match s
    case Simple(nl) => assert Annotate(s, path, depth)[1..] == [];
    case Block(nl, body, nlClose) =>
      var inner := AnnotateAll(body, path + [OpenBrace], depth + 1);
      AllAreEven(body, path + [OpenBrace], depth + 1);
      BracesAreEven(Note(Token(nl, Open), path + [OpenBrace], depth), inner, Note(Token(nlClose, Close), BlockPath(path), depth));
    case Loop(nl, h, body) =>
      StatementIsEven(body, path + [h], BodyDepth(body, depth));
      EvenHeader(Note(Token(nl, Head(h)), path + [h], depth), Annotate(body, path + [h], BodyDepth(body, depth)));
    case DoWhile(nl, body, nlWhile) =>
      var w := AnnotateWhile(nlWhile, path, depth);
      StatementIsEven(body, path + [Do], BodyDepth(body, depth));
      assert w[1..] == [w[1]] && [w[1]][1..] == [];
      CountOne(Open, w[1]);
      CountOne(Close, w[1]);
      assert Count(Open, w) == 0 && Count(Close, w) == 0;
      EvenConcat(Annotate(body, path + [Do], BodyDepth(body, depth)), w);
      EvenHeader(Note(Token(nl, Head(Do)), path + [Do], depth), Annotate(body, path + [Do], BodyDepth(body, depth)) + w);
    case _ =>
      RestIsEven(s, path, depth);
      EvenHeader(Note(Token(s.nl, Head(If)), path + [If], depth), AnnotateRest(s, path, depth));
  }

  lemma {:induction false} BracesAreEven(open: Note, inner: seq<Note>, close: Note)
    requires open.tok.kind == Open && close.tok.kind == Close && Even(inner)
    ensures Even([open] + (inner + [close]))
  {
    assert ([open] + (inner + [close]))[1..] == inner + [close] && [close][1..] == [];
    CountConcat(Open, inner, [close]);
    CountConcat(Close, inner, [close]);
  }

  lemma {:induction false} RestIsEven(s: Stmt, path: seq<Entry>, depth: nat)
    requires StartsWithIf(s)
    ensures Even(AnnotateRest(s, path, depth))
    decreases s, 0
  {
    StatementIsEven(s.thn, path + [If], BodyDepth(s.thn, depth));
    if s.IfElse? {
      var e := Note(Token(s.nlElse, Head(Else)), path + [Else], depth);
      ElsePartIsEven(s.els, path, depth);
      EvenHeader(e, AnnotateElsePart(s.els, path, depth));
      EvenConcat(Annotate(s.thn, path + [If], BodyDepth(s.thn, depth)), [e] + AnnotateElsePart(s.els, path, depth));
    }
  }

  lemma {:induction false} ElsePartIsEven(els: Stmt, path: seq<Entry>, depth: nat)
    ensures Even(AnnotateElsePart(els, path, depth))
    decreases els, 2
  {
    if Collapsed(els) {
      RestIsEven(els, path, depth);
      EvenHeader(Note(Token(false, Head(If)), path + [If], depth), AnnotateRest(els, path, depth));
    } else {
      StatementIsEven(els, path + [Else], BodyDepth(els, depth));
    }
  }

  lemma {:induction false} AllAreEven(ss: seq<Stmt>, path: seq<Entry>, depth: nat)
    ensures Even(AnnotateAll(ss, path, depth))
    decreases ss, 2
  {
    if |ss| > 0 {
      StatementIsEven(ss[0], path, depth);
      AllAreEven(ss[1..], path, depth);
      EvenConcat(Annotate(ss[0], path, depth), AnnotateAll(ss[1..], path, depth));
    }
  }

  lemma {:induction false} DepthsFitEnds(before: seq<Entry>, notes: seq<Note>, after: seq<Entry>)
    requires DepthsFit(before, notes, after) && |notes| > 0
    ensures Top(notes).path == after
    decreases |notes|
  {
    if |notes| > 1 {
      DepthsFitEnds(notes[0].path, notes[1..], after);
    }
  }

  /** A block on one line of its own fits whoever owns it, unless headers are put back inside it. */
  lemma {:induction false} OneLineBlockFits(body: seq<Stmt>, before: seq<Entry>, depth: nat)
    ensures var line := Annotate(Block(true, body, false), before, depth);
            LineFits(before, line) <==> PutBack(line[0].path, line[1..]) == 0
  {
    StatementIsEven(Block(true, body, false), before, depth);
  }

  /** An opening brace, and after it on the same line whole statements and `tail`. */
  function RunIn(before: seq<Entry>, depth: nat, ss: seq<Stmt>, tail: seq<Note>): (r: seq<Note>)
    ensures |r| > 0 && r[0] == Note(Token(true, Open), before + [OpenBrace], depth)
  {
    [Note(Token(true, Open), before + [OpenBrace], depth)] + (AnnotateAll(ss, before + [OpenBrace], depth + 1) + tail)
  }

  lemma {:induction false} RunInCounts(before: seq<Entry>, depth: nat, ss: seq<Stmt>, tail: seq<Note>)
    requires Preliminary(before) == depth + if Owned(before) then 1 else 0
    ensures var line := RunIn(before, depth, ss, tail);
            Count(Open, line) - Count(Close, line) == 1 + Count(Open, tail) - Count(Close, tail) &&
            Top(line).path == if |tail| > 0 then Top(tail).path else before + [OpenBrace]
  {
    var inner := before + [OpenBrace];
    var notes := AnnotateAll(ss, inner, depth + 1);
    var line := RunIn(before, depth, ss, tail);
    assert line[1..] == notes + tail;
    AllAreEven(ss, inner, depth + 1);
    CountConcat(Open, notes, tail);
    CountConcat(Close, notes, tail);
    PreliminaryPush(before, OpenBrace);
    DepthsOfAll(ss, inner, depth + 1);
    if |tail| == 0 && |notes| > 0 {
      DepthsFitEnds(inner, notes, inner);
      assert Top(line) == Top(notes);
    }
  }

  /** A brace alone, or followed by statements and perhaps a header, fits unless headers are put back after it. */
  lemma {:induction false} RunInFits(before: seq<Entry>, depth: nat, ss: seq<Stmt>, tail: seq<Note>)
    requires Preliminary(before) == depth + if Owned(before) then 1 else 0
    requires |tail| == 0 || (|tail| == 1 && tail[0].tok.kind.Head? && tail[0].path == before + [OpenBrace, tail[0].tok.kind.h])
    ensures var line := RunIn(before, depth, ss, tail);
            LineFits(before, line) <==> PutBack(line[0].path, line[1..]) == 0
  {
    var end := Top(RunIn(before, depth, ss, tail)).path;
    RunInCounts(before, depth, ss, tail);
    assert |tail| == 1 ==> tail[1..] == [];
    if |tail| == 0 {
      assert HeaderAt(end, 2) <==> Owned(before);
    } else {
      assert !HeaderAt(end, 2) && (HeaderAt(end, 3) <==> Owned(before));
    }
  }

  /**
   A brace, statements, and then a header with its brace on the same line: the line
   is moved left whoever owns its first brace.
   */
  lemma {:induction false} RunInHeaderAndBrace(before: seq<Entry>, depth: nat, ss: seq<Stmt>, h: Keyword, d: nat)
    requires Preliminary(before) == depth + if Owned(before) then 1 else 0
    ensures var inner := before + [OpenBrace];
            var line := RunIn(before, depth, ss, [Note(Token(false, Head(h)), inner + [h], d),
                                                  Note(Token(false, Open), inner + [h] + [OpenBrace], d)]);
            var due := PutBack(line[0].path, line[1..]) + if Owned(before) then 1 else 0;
            LineFits(before, line) <==> due == 1 || (due == 0 && depth == 0)
  {
    var inner := before + [OpenBrace];
    var tail := [Note(Token(false, Head(h)), inner + [h], d), Note(Token(false, Open), inner + [h] + [OpenBrace], d)];
    RunInCounts(before, depth, ss, tail);
    assert tail[1..] == [tail[1]] && [tail[1]][1..] == [];
    CountOne(Open, tail[1]);
    CountOne(Close, tail[1]);
    assert Count(Open, tail) == 1 && Count(Close, tail) == 0;
    assert HeaderAt(Top(RunIn(before, depth, ss, tail)).path, 2);
  }

  // ---------------------------------------------------------------------
  // The beautifier object
  // ---------------------------------------------------------------------

  lemma {:induction false} StepsSnoc(st: State, toks: seq<Token>, t: Token)
    ensures Steps(st, toks + [t]) == Step(Steps(st, toks), t)
    decreases |toks|
  {
    if |toks| > 0 {
      assert (toks + [t])[1..] == toks[1..] + [t];
      StepsSnoc(Step(st, toks[0]), toks[1..], t);
    } else {
      assert [t][1..] == [];
    }
  }

  /** Once a pop was undefined, the state stays undefined. */
  lemma {:induction false} UndefinedStays(st: State, toks: seq<Token>, n: nat)
    requires n <= |toks| && Steps(st, toks).stacks.defined
    ensures Steps(st, toks[..n]).stacks.defined
    decreases |toks| - n
  {
    if n == |toks| {
      assert toks[..n] == toks;
    } else {
      UndefinedStays(st, toks, n + 1);
      assert toks[..n + 1] == toks[..n] + [toks[n]];
      StepsSnoc(st, toks[..n], toks[n]);
    }
  }

  function LineTokens(line: seq<Kind>): (r: seq<Token>)
    ensures |r| == |line|
  {
    seq(|line|, i requires 0 <= i < |line| => Token(i == 0, line[i]))
  }

  /** The indent is settled at the end of the line. */
  function Settled(st: State): State
  {
    st.(line := st.line.(indentCount := FinalIndent(st)))
  }

  /** The tokens of consecutive lines. */
  function FileTokens(lines: seq<seq<Kind>>): seq<Token>
  {
    if |lines| == 0 then [] else LineTokens(lines[0]) + FileTokens(lines[1..])
  }

  predicate StartsLine(toks: seq<Token>)
  {
    |toks| > 0 ==> toks[0].newLine
  }

  lemma {:induction false} FileStartsLine(lines: seq<seq<Kind>>)
    requires forall l :: l in lines ==> |l| > 0
    ensures StartsLine(FileTokens(lines))
  {
    if |lines| > 0 {
      assert lines[0] in lines;
    }
  }

  lemma {:induction false} StepsConcat(st: State, a: seq<Token>, b: seq<Token>)
    ensures Steps(st, a + b) == Steps(Steps(st, a), b)
    decreases |a|
  {
    if |a| == 0 {
      assert a + b == b;
    } else {
      assert (a + b)[1..] == a[1..] + b;
      StepsConcat(Step(st, a[0]), a[1..], b);
    }
  }

  lemma {:induction false} LineLengthIs(toks: seq<Token>, rest: seq<Token>)
    requires |toks| > 0 && StartsLine(rest) && forall i :: 0 < i < |toks| ==> !toks[i].newLine
    ensures LineLength(toks + rest) == |toks|
  {
    assert (toks + rest)[1..] == toks[1..] + rest;
    if |toks| > 1 {
      assert !toks[1].newLine;
      LineLengthIs(toks[1..], rest);
    }
  }

  /** A line that has been settled leaves the next lines as they are: each computes its indent afresh. */
  lemma {:induction false} SettledStartsAfresh(st: State, toks: seq<Token>)
    requires StartsLine(toks)
    ensures Indents(Settled(st), toks) == Indents(st, toks)
    ensures Steps(Settled(st), toks).stacks == Steps(st, toks).stacks
  {
    if |toks| > 0 {
      var n := LineLength(toks);
      assert toks[..n][0] == toks[0];
      assert Step(Settled(st), toks[0]) == Step(st, toks[0]);
    }
  }

  /** One line more. */
  lemma {:induction false} IndentsOfLine(st: State, line: seq<Kind>, rest: seq<Token>)
    requires |line| > 0 && StartsLine(rest)
    ensures var end := Steps(st, LineTokens(line));
            Indents(st, LineTokens(line) + rest) == [FinalIndent(end)] + Indents(Settled(end), rest) &&
            Steps(Settled(end), rest).stacks == Steps(st, LineTokens(line) + rest).stacks
  {
    var toks := LineTokens(line);
    LineLengthIs(toks, rest);
    assert (toks + rest)[..|toks|] == toks && (toks + rest)[|toks|..] == rest;
    StepsConcat(st, toks, rest);
    SettledStartsAfresh(Steps(st, toks), rest);
  }

  lemma {:induction false} OneMoreLine(st: State, lines: seq<seq<Kind>>, done: seq<int>)
    requires |lines| > 0 && (forall l :: l in lines ==> |l| > 0) && Steps(st, FileTokens(lines)).stacks.defined
    ensures |lines[0]| > 0 && forall l :: l in lines[1..] ==> |l| > 0
    ensures var end := Steps(st, LineTokens(lines[0]));
            end.stacks.defined && Steps(Settled(end), FileTokens(lines[1..])).stacks.defined &&
            done + Indents(st, FileTokens(lines)) == done + [FinalIndent(end)] + Indents(Settled(end), FileTokens(lines[1..]))
  {
    var toks, rest := LineTokens(lines[0]), FileTokens(lines[1..]);
    assert lines[0] in lines;
    FileStartsLine(lines[1..]);
    IndentsOfLine(st, lines[0], rest);
    UndefinedStays(st, toks + rest, |toks|);
    assert (toks + rest)[..|toks|] == toks;
  }

  class Beautifier {
    var headerStack: seq<Entry>
    var tempStacks: seq<seq<Entry>>
    var lastLineHeader: Option<Entry>
    var indentCount: int
    var closingBraceReached: bool
    var lineBeginsWith: Option<Kind>
    var lineOpeningBlocksNum: nat
    var lineClosingBlocksNum: nat
    var prelimSize: nat
    var isInExtraHeaderIndent: bool

    ghost function View(): State
      reads this
    {
      State(StackState(headerStack, tempStacks, true), lastLineHeader,
            LineState(lineBeginsWith, indentCount, closingBraceReached, lineOpeningBlocksNum, lineClosingBlocksNum,
                      prelimSize, isInExtraHeaderIndent))
    }

    constructor ()
      ensures View() == FRESH
    {
      headerStack, tempStacks, lastLineHeader := [], [[]], None;
      indentCount, closingBraceReached, lineBeginsWith := 0, false, None;
      lineOpeningBlocksNum, lineClosingBlocksNum, prelimSize, isInExtraHeaderIndent := 0, 0, 0, false;
    }

    method ComputePreliminaryIndentation()
      modifies this`indentCount
      ensures indentCount == Preliminary(headerStack)
    {
      indentCount := 0;
      for i := 0 to |headerStack|
        invariant indentCount == Preliminary(headerStack[..i])
      {
        assert Pop(headerStack[..i + 1]) == headerStack[..i];
        if !(i > 0 && headerStack[i - 1] != OpenBrace && headerStack[i] == OpenBrace) {
          indentCount := indentCount + 1;
        }
      }
      assert headerStack[..|headerStack|] == headerStack;
    }

    method ParseHeader(h: Keyword)
      requires ParseToken(View(), Head(h)).stacks.defined
      modifies this`headerStack, this`tempStacks, this`indentCount, this`lastLineHeader
      ensures View() == ParseToken(old(View()), Head(h))
    {
      if h == If && lastLineHeader == Some(Else) {
        headerStack := Pop(headerStack);
      } else if Partner(h).Some? && |tempStacks| > 0 {
        var temp := Top(tempStacks);
        var at := IndexOf(temp, Partner(h).value);
        if at != -1 {
          var restackSize := |temp| - at - 1;
          var r := 0;
          while r < restackSize
            invariant 0 <= r <= restackSize && indentCount == old(indentCount)
            invariant |tempStacks| == |old(tempStacks)| && Pop(tempStacks) == Pop(old(tempStacks))
            invariant |Top(tempStacks)| == |temp| - r
            invariant Restack(headerStack, Top(tempStacks), restackSize - r)
                      == Restack(old(headerStack), temp, restackSize)
          {
            headerStack := headerStack + [Top(Top(tempStacks))];
            tempStacks := Pop(tempStacks) + [Pop(Top(tempStacks))];
            r := r + 1;
          }
          assert Restack(headerStack, Top(tempStacks), 0) == (headerStack, Top(tempStacks));
          assert tempStacks == Pop(tempStacks) + [Top(tempStacks)];
          assert restackSize == 0 ==> tempStacks == old(tempStacks);
          if !closingBraceReached {
            indentCount := indentCount + restackSize;
          }
        }
      }
      headerStack := headerStack + [h];
      lastLineHeader := Some(h);
    }

    method EndOfStatement()
      requires |tempStacks| > 0
      modifies this`headerStack, this`tempStacks
      ensures StackState(headerStack, tempStacks, true)
              == EndStatement(StackState(old(headerStack), old(tempStacks), true))
    {
      while |Top(tempStacks)| > 0
        invariant headerStack == old(headerStack)
        invariant |tempStacks| == |old(tempStacks)| && Pop(tempStacks) == Pop(old(tempStacks))
        decreases |Top(tempStacks)|
      {
        tempStacks := Pop(tempStacks) + [Pop(Top(tempStacks))];
      }
      assert Top(tempStacks) == [];
      while |headerStack| > 0 && Top(headerStack) != OpenBrace
        invariant |tempStacks| == |old(tempStacks)| && Pop(tempStacks) == Pop(old(tempStacks))
        invariant Snapshot(headerStack, Top(tempStacks)) == Snapshot(old(headerStack), [])
        decreases |headerStack|
      {
        tempStacks := Pop(tempStacks) + [Top(tempStacks) + [Top(headerStack)]];
        headerStack := Pop(headerStack);
      }
      assert tempStacks == Pop(tempStacks) + [Top(tempStacks)];
    }

    method CloseBrace()
      requires ParseToken(View(), Close).stacks.defined
      modifies this`headerStack, this`tempStacks, this`lineClosingBlocksNum, this`closingBraceReached
      ensures View() == ParseToken(old(View()), Close)
    {
      ghost var k := View().stacks;
      assert CloseBlock(k).defined;
      lineClosingBlocksNum := lineClosingBlocksNum + 1;
      closingBraceReached := true;
      if IndexOf(headerStack, OpenBrace) != -1 {
        while Top(headerStack) != OpenBrace
          invariant tempStacks == old(tempStacks)
          invariant lineClosingBlocksNum == old(lineClosingBlocksNum) + 1 && closingBraceReached
          invariant OpenBrace in headerStack && PopBlock(headerStack) == PopBlock(old(headerStack))
          decreases |headerStack|
        {
          headerStack := Pop(headerStack);
        }
        headerStack := Pop(headerStack);
        if |tempStacks| > 0 {
          tempStacks := Pop(tempStacks);
        }
      }
      assert CloseBlock(k) == EndStatement(StackState(headerStack, tempStacks, true));
      EndOfStatement();
    }

    method Parse(kind: Kind)
      requires ParseToken(View(), kind).stacks.defined
      modifies this
      ensures View() == ParseToken(old(View()), kind)
    {
      match kind {
        case Head(h) =>
          ParseHeader(h);
        case Open =>
          lineOpeningBlocksNum := lineOpeningBlocksNum + 1;
          tempStacks := tempStacks + [[]];
          headerStack := headerStack + [OpenBrace];
          lastLineHeader := Some(OpenBrace);
        case Close =>
          CloseBrace();
        case Semi =>
          EndOfStatement();
      }
    }

    /** The lines of a file: their indents are those of its token sequence. */
    method BeautifyAll(lines: seq<seq<Kind>>) returns (indents: seq<int>)
      requires forall l :: l in lines ==> |l| > 0
      requires Steps(View(), FileTokens(lines)).stacks.defined
      modifies this
      ensures indents == Indents(old(View()), FileTokens(lines))
    {
      indents := [];
      var left := lines;
      ghost var all := Indents(View(), FileTokens(lines));
      while |left| > 0
        invariant forall l :: l in left ==> |l| > 0
        invariant Steps(View(), FileTokens(left)).stacks.defined
        invariant indents + Indents(View(), FileTokens(left)) == all
      {
        OneMoreLine(View(), left, indents);
        var indent := Beautify(left[0]);
        indents := indents + [indent];
        left := left[1..];
      }
    }

    /** One source line. */
    method Beautify(line: seq<Kind>) returns (indent: nat)
      requires |line| > 0
      requires Steps(View(), LineTokens(line)).stacks.defined
      modifies this
      ensures View() == Settled(Steps(old(View()), LineTokens(line)))
      ensures indent == FinalIndent(Steps(old(View()), LineTokens(line)))
    {
      BeginBeautify(line[0]);
      ParseCurrentLine(line, old(View()));
      AdjustParsedLineIndentation();
      indent := indentCount;
    }

    method BeginBeautify(kind: Kind)
      modifies this
      ensures View() == BeginLine(old(View()), kind)
    {
      lastLineHeader, closingBraceReached, lineBeginsWith := None, false, Some(kind);
      lineOpeningBlocksNum, lineClosingBlocksNum, prelimSize := 0, 0, |headerStack|;
      isInExtraHeaderIndent := kind == Open && |headerStack| > 0 && Top(headerStack) != OpenBrace;
      ComputePreliminaryIndentation();
    }

    method ParseCurrentLine(line: seq<Kind>, ghost start: State)
      requires |line| > 0 && View() == BeginLine(start, line[0])
      requires Steps(start, LineTokens(line)).stacks.defined
      modifies this
      ensures View() == Steps(start, LineTokens(line))
    {
      ghost var toks := LineTokens(line);
      var i := 0;
      while i < |line|
        invariant 0 <= i <= |line|
        invariant View() == if i == 0 then BeginLine(start, line[0]) else Steps(start, toks[..i])
        invariant lineBeginsWith.Some?
      {
        UndefinedStays(start, toks, i + 1);
        assert toks[..i + 1] == toks[..i] + [toks[i]];
        StepsSnoc(start, toks[..i], toks[i]);
        Parse(line[i]);
        i := i + 1;
      }
      assert toks[..|line|] == toks;
    }

    method AdjustParsedLineIndentation()
      modifies this`indentCount
      ensures View() == Settled(old(View()))
    {
      var size := |headerStack|;
      var oneLine := lineOpeningBlocksNum > 0 && lineOpeningBlocksNum <= lineClosingBlocksNum;
      if lineBeginsWith == Some(Open) && size < prelimSize && isInExtraHeaderIndent && oneLine {
        indentCount := indentCount - 1;
      } else if lineBeginsWith == Some(Open) && !oneLine && size > 1 && headerStack[size - 2] != OpenBrace {
        indentCount := indentCount - 1;
      } else if size > prelimSize + 1 && lineBeginsWith == Some(Open) && !oneLine
                && size > 2 && headerStack[size - 3] != OpenBrace {
        indentCount := indentCount - 1;
      } else if lineBeginsWith == Some(Close) {
        indentCount := indentCount - 1;
      }
      if indentCount < 0 {
        indentCount := 0;
      }
    }
  }
}
