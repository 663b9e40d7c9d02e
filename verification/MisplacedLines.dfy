/**
 Two programs whose lines come out at the wrong depth.
 */
module MisplacedLines {
  import opened Stacks
  import opened HeaderStack
  import opened LineIndent

  /** `{`, `{ while (a) {`, `x;` and three closing braces, on six lines. */
  function BareBlock(h: LoopKeyword): seq<Stmt>
  {
    [Block(true, [Block(true, [BareLoop(h)], true)], true)]
  }

  function BareLoop(h: LoopKeyword): Stmt
  {
    Loop(false, h, Block(false, [Simple(true)], true))
  }

  lemma {:induction false} OneStatement(s: Stmt, path: seq<Entry>, depth: nat)
    ensures AnnotateAll([s], path, depth) == Annotate(s, path, depth)
  {
    assert [s][1..] == [];
    assert Annotate(s, path, depth) + [] == Annotate(s, path, depth);
  }

  lemma {:induction false} BareLoopNotes(h: LoopKeyword, path: seq<Entry>, depth: nat)
    ensures var notes := Annotate(BareLoop(h), path, depth);
            |notes| == 4 && notes[0] == Note(Token(false, Head(h)), path + [h], depth) &&
            notes[1] == Note(Token(false, Open), path + [h] + [OpenBrace], depth) &&
            notes[2].tok == Token(true, Semi) && notes[3].tok == Token(true, Close)
  {
    OneStatement(Simple(true), path + [h] + [OpenBrace], depth + 1);
  }

  /** A block around one statement. */
  lemma {:induction false} InBlock(s: Stmt, path: seq<Entry>, depth: nat)
    ensures var inner, notes := Annotate(s, path + [OpenBrace], depth + 1), Annotate(Block(true, [s], true), path, depth);
            |notes| == |inner| + 2 && notes[0] == Note(Token(true, Open), path + [OpenBrace], depth) &&
            (forall i :: 0 <= i < |inner| ==> notes[i + 1] == inner[i]) && notes[|inner| + 1].tok == Token(true, Close)
  {
    var inner := Annotate(s, path + [OpenBrace], depth + 1);
    var close := Note(Token(true, Close), BlockPath(path), depth);
    OneStatement(s, path + [OpenBrace], depth + 1);
    assert Annotate(Block(true, [s], true), path, depth) == [Note(Token(true, Open), path + [OpenBrace], depth)] + (inner + [close]);
  }

  lemma {:induction false} InTwoBlocks(s: Stmt, path: seq<Entry>, depth: nat)
    ensures var p := path + [OpenBrace];
            var q := p + [OpenBrace];
            var inner := Annotate(s, q, depth + 2);
            var notes := AnnotateAll([Block(true, [Block(true, [s], true)], true)], path, depth);
            |notes| == |inner| + 4 && notes[0] == Note(Token(true, Open), p, depth) &&
            notes[1] == Note(Token(true, Open), q, depth + 1) &&
            (forall i :: 0 <= i < |inner| ==> notes[i + 2] == inner[i]) &&
            notes[|inner| + 2].tok == Token(true, Close) && notes[|inner| + 3].tok == Token(true, Close)
  {
    var block := Block(true, [s], true);
    var inner := Annotate(s, path + [OpenBrace] + [OpenBrace], depth + 2);
    InBlock(s, path + [OpenBrace], depth + 1);
    InBlock(block, path, depth);
    OneStatement(Block(true, [block], true), path, depth);
    var notes, middle := Annotate(Block(true, [block], true), path, depth), Annotate(block, path + [OpenBrace], depth + 1);
    forall i | 0 <= i < |inner| ensures notes[i + 2] == inner[i] {
      assert notes[i + 1 + 1] == middle[i + 1];
    }
    assert notes[|inner| + 1 + 1] == middle[|inner| + 1];
  }

  predicate IsBareBlock(h: LoopKeyword, notes: seq<Note>)
  {
    var q := [OpenBrace] + [OpenBrace];
    |notes| == 8 && notes[0] == Note(Token(true, Open), [OpenBrace], 0) && notes[1] == Note(Token(true, Open), q, 1) &&
    notes[2] == Note(Token(false, Head(h)), q + [h], 2) && notes[3] == Note(Token(false, Open), q + [h] + [OpenBrace], 2) &&
    notes[4].tok == Token(true, Semi) && notes[5].tok == Token(true, Close) &&
    notes[6].tok == Token(true, Close) && notes[7].tok == Token(true, Close)
  }

  lemma {:induction false} BareBlockNotes(h: LoopKeyword) returns (notes: seq<Note>)
    ensures notes == AnnotateAll(BareBlock(h), [], 0) && IsBareBlock(h, notes)
  {
    var q := [OpenBrace] + [OpenBrace];
    notes := AnnotateAll(BareBlock(h), [], 0);
    InTwoBlocks(BareLoop(h), [], 0);
    assert [] + [OpenBrace] == [OpenBrace];
    BareLoopNotes(h, q, 2);
    var inner := Annotate(BareLoop(h), q, 2);
    assert notes[0 + 2] == inner[0] && notes[1 + 2] == inner[1] && notes[2 + 2] == inner[2] && notes[3 + 2] == inner[3];
  }

  lemma {:induction false} FirstLineIs(notes: seq<Note>, n: nat)
    requires 0 < n <= |notes| && (forall i :: 0 < i < n ==> !notes[i].tok.newLine) && (n < |notes| ==> notes[n].tok.newLine)
    ensures FirstLine(notes) == notes[..n]
  {
    var toks := Tokens(notes);
    assert toks[..n] + toks[n..] == toks;
    LineLengthIs(toks[..n], toks[n..]);
  }

  lemma {:induction false} LeadingIfsAreFresh(last: Option<Entry>, afterElse: bool, toks: seq<Token>)
    requires forall t :: t in toks && t.kind == Head(If) ==> t.newLine
    ensures NoStaleElse(last, afterElse, toks)
    decreases |toks|
  {
    if |toks| > 0 {
      assert toks[0] in toks;
      LeadingIfsAreFresh(NextLineHeader(last, toks[0]), toks[0].kind == Head(Else), toks[1..]);
    }
  }

  lemma {:induction false} NextLinesFit(before: seq<Entry>, notes: seq<Note>, n: nat)
    requires 0 < n <= |notes| && (forall i :: 0 < i < n ==> !notes[i].tok.newLine) && (n < |notes| ==> notes[n].tok.newLine)
    ensures LinesFit(before, notes) <==> LineFits(before, notes[..n]) && LinesFit(notes[n - 1].path, notes[n..])
  {
    FirstLineIs(notes, n);
  }

  lemma {:induction false} BraceStep(st: State, t: Token)
    requires t == Token(true, Open) && st.stacks.defined
    ensures var k, end := st.stacks, Step(st, t);
            end.stacks == StackState(k.headers + [OpenBrace], k.temps + [[]], true) &&
            end.line == LineState(Some(Open), Preliminary(k.headers), false, 1, 0, |k.headers|, Owned(k.headers))
  {
  }

  lemma {:induction false} HeaderAndBraceRun(st: State, h: LoopKeyword, t: Token, u: Token)
    requires st.stacks.defined && st.stacks.headers == [OpenBrace, OpenBrace] && |st.stacks.temps| > 0 && Top(st.stacks.temps) == []
    requires st.line == LineState(Some(Open), 1, false, 1, 0, 1, false)
    requires t == Token(false, Head(h)) && u == Token(false, Open)
    ensures FinalIndent(Step(Step(st, t), u)) == 0
  {
    assert RestackSize(st.stacks, h) == 0;
    var st1 := Step(st, t);
    assert st1.stacks.headers == [OpenBrace, OpenBrace, h] && st1.line == st.line && st1.stacks.defined;
    var st2 := Step(st1, u);
    assert st2.stacks.headers == [OpenBrace, OpenBrace, h, OpenBrace] && st2.line == st.line.(openings := 2);
  }

  lemma {:induction false} BareBlockRuns(h: LoopKeyword, toks: seq<Token>)
    requires |toks| == 4 && toks[0] == Token(true, Open) && toks[1] == Token(true, Open)
    requires toks[2] == Token(false, Head(h)) && toks[3] == Token(false, Open)
    ensures FinalIndent(Steps(FRESH, toks)) == 0
  {
    var st1 := Step(FRESH, toks[0]);
    var st2 := Step(st1, toks[1]);
    BraceStep(FRESH, toks[0]);
    assert st1.stacks.headers == [OpenBrace];
    PreliminaryPush([], OpenBrace);
    assert [] + [OpenBrace] == [OpenBrace];
    BraceStep(st1, toks[1]);
    HeaderAndBraceRun(st2, h, toks[2], toks[3]);
    FourSteps(FRESH, toks);
  }

  lemma {:induction false} FourSteps(st: State, toks: seq<Token>)
    requires |toks| == 4
    ensures Steps(st, toks) == Step(Step(Step(Step(st, toks[0]), toks[1]), toks[2]), toks[3])
  {
    assert toks[..1] == [] + [toks[0]] && toks[..2] == toks[..1] + [toks[1]];
    assert toks[..3] == toks[..2] + [toks[2]] && toks == toks[..3] + [toks[3]];
    StepsSnoc(st, [], toks[0]);
    StepsSnoc(st, toks[..1], toks[1]);
    StepsSnoc(st, toks[..2], toks[2]);
    StepsSnoc(st, toks[..3], toks[3]);
  }

  /**
   The bare block on the line `{ while (a) {` stands at 0 instead of 1, though no
   header is put back.
   */
  lemma {:induction false} BareBlockLosesAnIndent(h: LoopKeyword) returns (notes: seq<Note>)
    ensures notes == AnnotateAll(BareBlock(h), [], 0) && ElsesAreFresh(Tokens(notes))
    ensures Indents(FRESH, Tokens(notes)) != LineDepths(notes)
    ensures |notes| == 8 && FirstLine(notes[1..]) == notes[1..4] && notes[1].depth == 1
    ensures FinalIndent(Steps(FRESH, Tokens(notes)[..4])) == 0
  {
    notes := BareBlockNotes(h);
    BareBlockRuns(h, Tokens(notes)[..4]);
    BareBlockMisfits(h, notes);
    BareBlockHasNoIf(h, notes);
    LeadingIfsAreFresh(None, false, Tokens(notes));
    StaleByPlace(Tokens(notes));
    BareBlockIsWellFormed(h);
    IndentsAreDepths(BareBlock(h));
  }

  lemma {:induction false} BareBlockMisfits(h: LoopKeyword, notes: seq<Note>)
    requires IsBareBlock(h, notes)
    ensures FirstLine(notes[1..]) == notes[1..4] && !LinesFit([], notes)
  {
    var next := notes[1..];
    assert next[1] == notes[2] && next[2] == notes[3] && next[3] == notes[4] && next[..3] == notes[1..4];
    FirstLineIs(next, 3);
    BareLineMisfits(h, notes[1..4]);
    NextLinesFit([], notes, 1);
    NextLinesFit([OpenBrace], next, 3);
  }

  lemma {:induction false} BareLineMisfits(h: LoopKeyword, line: seq<Note>)
    requires var q := [OpenBrace] + [OpenBrace];
             line == [Note(Token(true, Open), q, 1), Note(Token(false, Head(h)), q + [h], 2),
                      Note(Token(false, Open), q + [h] + [OpenBrace], 2)]
    ensures !LineFits([OpenBrace], line)
  {
    var p := [OpenBrace];
    var q := p + [OpenBrace];
    var tail := line[1..];
    assert tail == [line[1], line[2]] && tail[1..] == [line[2]] && [line[2]][1..] == [];
    assert AnnotateAll([], q, 2) + tail == tail;
    assert line == RunIn(p, 1, [], tail);
    assert Pop(p) == [] && Preliminary(p) == 1;
    RunInHeaderAndBrace(p, 1, [], h, 2);
    assert PutBack(q + [h], tail[1..]) == 0;
    assert PutBack(q, tail) == 0;
  }

  lemma {:induction false} BareBlockHasNoIf(h: LoopKeyword, notes: seq<Note>)
    requires IsBareBlock(h, notes)
    ensures forall t :: t in Tokens(notes) ==> t.kind != Head(If)
  {
    forall i | 0 <= i < 8 ensures Tokens(notes)[i].kind != Head(If) {
    }
  }

  lemma {:induction false} BareBlockIsWellFormed(h: LoopKeyword)
    ensures forall s :: s in BareBlock(h) ==> WellFormed(s)
  {
    assert WellFormed(BareLoop(h).loopBody) && WellFormed(BareLoop(h));
    assert WellFormed(Block(true, [BareLoop(h)], true));
  }

  /** `if (a)`, `if (b)`, and on the third line `x; else`, with `y;` on it or on the next. */
  function LateElse(nl: bool): Stmt
  {
    IfThen(true, IfElse(true, Simple(true), false, Simple(nl)))
  }

  lemma {:induction false} LateElseNotes(nl: bool) returns (notes: seq<Note>)
    ensures notes == AnnotateAll([LateElse(nl)], [], 0) && |notes| == 5
    ensures notes[0] == Note(Token(true, Head(If)), [If], 0) && notes[1].tok == Token(true, Head(If))
    ensures notes[2].tok == Token(true, Semi) && |notes[2].path| == 0
    ensures notes[3].tok == Token(false, Head(Else)) && |notes[3].path| == 2 && notes[4].tok == Token(nl, Semi)
  {
    var path := [] + [If];
    OneStatement(LateElse(nl), [], 0);
    LateElseInside(nl, path, 1);
    BlockPathExtend([], [If, If]);
    assert path + [If] == [] + [If, If];
    notes := Annotate(LateElse(nl), [], 0);
  }

  lemma {:induction false} LateElseInside(nl: bool, path: seq<Entry>, depth: nat)
    ensures var s := IfElse(true, Simple(true), false, Simple(nl));
            var notes := Annotate(s, path, depth);
            |notes| == 4 && notes[0].tok == Token(true, Head(If)) &&
            notes[1] == Note(Token(true, Semi), BlockPath(path + [If]), depth + 1) &&
            notes[2] == Note(Token(false, Head(Else)), path + [Else], depth) && notes[3].tok == Token(nl, Semi)
  {
  }

  /** The `else` puts the outer `if` back in the middle of its line, and the line moves. */
  lemma {:induction false} LateElseMovesItsLine(nl: bool) returns (notes: seq<Note>)
    ensures notes == AnnotateAll([LateElse(nl)], [], 0) && ElsesAreFresh(Tokens(notes))
    ensures Indents(FRESH, Tokens(notes)) != LineDepths(notes)
  {
    notes := LateElseNotes(nl);
    var n := if nl then 2 else 3;
    LeadingIfsAreFresh(None, false, Tokens(notes));
    StaleByPlace(Tokens(notes));
    NextLinesFit([], notes, 1);
    NextLinesFit([If], notes[1..], 1);
    NextLinesFit(notes[1].path, notes[2..], n);
    assert notes[2..][..n][1..][0] == notes[3];
    assert notes[1..][1..] == notes[2..];
    IndentsAreDepths([LateElse(nl)]);
  }
}
