/**
 What the line assembly keeps over every run: the text, the split points and their
 separators, where lines are cut, the empty lines and the place of the comment.
 */
module LineLaws {
  import opened Stacks
  import opened Characters
  import opened KeywordSearch
  import opened LineSplitter

  // ---------------------------------------------------------------------
  // Split points stay on the line
  // ---------------------------------------------------------------------

  predicate OnLine(p: Points, length: nat)
  {
    p.semi <= length && p.andOr <= length && p.comma <= length && p.paren <= length && p.whiteSpace <= length &&
    p.semiPending <= length && p.andOrPending <= length && p.commaPending <= length && p.parenPending <= length &&
    p.whiteSpacePending <= length
  }

  predicate PointsOnLine(st: State)
  {
    OnLine(st.points, |st.formattedLine|)
  }

  lemma {:induction false} CutKeepsPointsOnLine(st: State, at: nat)
    requires PointsOnLine(st) && at < |st.formattedLine|
    ensures PointsOnLine(CutAt(st, at))
  {
  }

  lemma {:induction false} SplitKeepsPointsOnLine(o: Options, st: State, c: Here)
    requires PointsOnLine(st)
    ensures PointsOnLine(TestForTimeToSplit(o, st, c))
  {
    if o.maxCodeLength.Some? {
      var at := SplitPoint(o, o.maxCodeLength.value, st.points, |st.formattedLine|, c);
      if 0 < at < |st.formattedLine| {
        CutKeepsPointsOnLine(st, at);
      }
    }
  }

  lemma {:induction false} AppendKeepsPointsOnLine(o: Options, st: State, text: string, source: Source, c: Here)
    requires PointsOnLine(st) && (|text| > 0 || source == Sequence)
    ensures PointsOnLine(Append(o, st, text, source, c))
  {
    var st1 := st.(formattedLine := st.formattedLine + text);
    if o.maxCodeLength.Some? {
      RememberKeepsPointsOnLine(o, o.maxCodeLength.value, st1, text, source, c);
      SplitKeepsPointsOnLine(o, Remember(o, o.maxCodeLength.value, st1, text, source, c), c);
    }
  }

  lemma {:induction false} RememberKeepsPointsOnLine(o: Options, max: nat, st: State, text: string, source: Source, c: Here)
    requires PointsOnLine(st) && (source == Sequence || 0 < |text| <= |st.formattedLine|)
    ensures PointsOnLine(Remember(o, max, st, text, source, c))
  {
    var st1 := AfterOkToSplit(st, c);
    if source == Char {
      CharPointOnLine(o, max, st1.points, |st1.formattedLine|, text[0], c);
    } else if source == Operator {
      OperatorPointOnLine(o, max, st1.points, st1.formattedLine, text, c);
    }
  }

  lemma {:induction false} PutOnLine(p: Points, k: Kind, fits: bool, at: nat, length: nat)
    requires OnLine(p, length) && at <= length
    ensures OnLine(Put(p, k, fits, at), length)
  {
  }

  lemma {:induction false} CharPointOnLine(o: Options, max: nat, p: Points, length: nat, ch: char, c: Here)
    requires length > 0 && OnLine(p, length)
    ensures OnLine(PointsAfterChar(o, max, p, length, ch, c), length)
  {
    forall k, fits, at: nat | at <= length ensures OnLine(Put(p, k, fits, at), length) {
      PutOnLine(p, k, fits, at, length);
    }
  }

  lemma {:induction false} OperatorPointOnLine(o: Options, max: nat, p: Points, line: string, op: string, c: Here)
    requires 0 < |op| <= |line| && OnLine(p, |line|)
    ensures OnLine(PointsAfterOperator(o, max, p, line, op, c), |line|)
  {
    forall k, fits, at: nat | at <= |line| ensures OnLine(Put(p, k, fits, at), |line|) {
      PutOnLine(p, k, fits, at, |line|);
    }
  }

  lemma {:induction false} StepKeepsPointsOnLine(o: Options, st: State, e: Event)
    requires PointsOnLine(st) && Possible(st, e)
    ensures PointsOnLine(Step(o, st, e))
  {
    match Appends(st, e)
    case Some(a) => AppendKeepsPointsOnLine(o, Prepared(st, e), a.text, a.source, a.c);
    case None => QuietKeepsPointsOnLine(o, st, e);
  }

  lemma {:induction false} QuietKeepsPointsOnLine(o: Options, st: State, e: Event)
    requires PointsOnLine(st) && Possible(st, e)
    ensures PointsOnLine(Quiet(o, st, e))
  {
    match e
    case PointerOrReference(index, c) =>
      if o.maxCodeLength.Some? {
        PointerKeepsPointsOnLine(o.maxCodeLength.value, st, index, c);
      }
    case TestSplit(c) => SplitKeepsPointsOnLine(o, st, c);
    case _ =>
  }

  lemma {:induction false} PointerKeepsPointsOnLine(max: nat, st: State, index: nat, c: Here)
    requires PointsOnLine(st) && index <= |st.formattedLine|
    ensures PointsOnLine(AfterPointer(max, st, index, c))
  {
    PutOnLine(AfterOkToSplit(st, c).points, WhiteSpace, index <= max, index, |st.formattedLine|);
  }

  // ---------------------------------------------------------------------
  // Split points stand at their separators
  // ---------------------------------------------------------------------

  predicate Behind(line: string, n: nat, ch: char)
  {
    n > 0 ==> n <= |line| && line[n - 1] == ch
  }

  predicate AtParen(line: string, n: nat)
  {
    n > 0 ==> (n <= |line| && line[n - 1] == '(') || (n < |line| && line[n] == '(')
  }

  /** Behind the last character of a logical operator, or before its first, with a blank before that. */
  predicate AtLogical(o: Options, line: string, n: nat)
  {
    n > 0 ==>
      if o.breakAfterLogical then n <= |line| && line[n - 1] in ['|', '&', 'r', 'd']
      else (n < |line| && line[n] in ['|', '&', 'o', 'a']) || (n + 1 < |line| && IsWhiteSpace(line[n]) && line[n + 1] in ['|', '&', 'o', 'a'])
  }

  predicate Stand(o: Options, p: Points, line: string)
  {
    Behind(line, p.semi, ';') && Behind(line, p.semiPending, ';') &&
    Behind(line, p.comma, ',') && Behind(line, p.commaPending, ',') &&
    AtParen(line, p.paren) && AtParen(line, p.parenPending) &&
    AtLogical(o, line, p.andOr) && AtLogical(o, line, p.andOrPending)
  }

  lemma {:induction false} TextKeepsStand(o: Options, p: Points, line: string, text: string)
    requires Stand(o, p, line)
    ensures Stand(o, p, line + text)
  {
    assert forall i :: 0 <= i < |line| ==> (line + text)[i] == line[i];
  }

  lemma {:induction false} CharStands(o: Options, max: nat, p: Points, line: string, ch: char, c: Here)
    requires |line| > 0 && Top(line) == ch && Stand(o, p, line)
    ensures Stand(o, PointsAfterChar(o, max, p, |line|, ch, c), line)
  {
    if PointsAfterChar(o, max, p, |line|, ch, c) != p {
      assert line[|line| - 1] == ch;
      match ch
      case ',' =>
      case ';' =>
      case '(' =>
      case _ =>
    }
  }

  lemma {:induction false} OperatorStands(o: Options, max: nat, p: Points, line: string, op: string, c: Here)
    requires 0 < |op| <= |line| && line[|line| - |op|..] == op && Stand(o, p, line)
    ensures Stand(o, PointsAfterOperator(o, max, p, line, op, c), line)
  {
    var n := |line|;
    if op in ["||", "&&", "or", "and"] {
      assert line[n - |op|] == op[0] && line[n - 1] == op[|op| - 1];
      var taken := if n > |op| && IsWhiteSpace(line[n - |op| - 1]) then |op| + 1 else |op|;
      assert AtLogical(o, line, if o.breakAfterLogical then n else n - taken);
    }
  }

  lemma {:induction false} ShiftKeepsStand(o: Options, p: Points, line: string, at: nat, n: nat)
    requires Stand(o, p, line) && at + n <= |line|
    ensures Stand(o, ShiftReady(Promoted(p, at), n), line[at + n..])
  {
    var rest := line[at + n..];
    assert forall i :: 0 <= i < |rest| ==> rest[i] == line[at + n + i];
  }

  lemma {:induction false} CutStands(o: Options, p: Points, line: string, at: nat)
    requires Stand(o, p, line) && at < |line|
    ensures var n := Blanks(line[at..]);
            Stand(o, if n == |line[at..]| then NO_POINTS else ShiftReady(Promoted(p, at), n), line[at..][n..])
  {
    var n := Blanks(line[at..]);
    DropTwice(line, at, n);
    ShiftKeepsStand(o, p, line, at, n);
  }

  lemma {:induction false} CutKeepsStand(o: Options, st: State, at: nat)
    requires Stand(o, st.points, st.formattedLine) && at < |st.formattedLine|
    ensures Stand(o, CutAt(st, at).points, CutAt(st, at).formattedLine)
  {
    CutLine(st, at);
    CutStands(o, st.points, st.formattedLine, at);
  }

  lemma {:induction false} SplitKeepsStand(o: Options, st: State, c: Here)
    requires Stand(o, st.points, st.formattedLine)
    ensures Stand(o, TestForTimeToSplit(o, st, c).points, TestForTimeToSplit(o, st, c).formattedLine)
  {
    if o.maxCodeLength.Some? {
      var at := SplitPoint(o, o.maxCodeLength.value, st.points, |st.formattedLine|, c);
      if 0 < at < |st.formattedLine| {
        CutKeepsStand(o, st, at);
      }
    }
  }

  lemma {:induction false} RememberKeepsStand(o: Options, max: nat, st: State, text: string, source: Source, c: Here)
    requires Stand(o, st.points, st.formattedLine)
    requires source == Sequence || (0 < |text| <= |st.formattedLine| && st.formattedLine[|st.formattedLine| - |text|..] == text)
    requires source == Char ==> |text| == 1
    ensures Stand(o, Remember(o, max, st, text, source, c).points, st.formattedLine)
  {
    var st1 := AfterOkToSplit(st, c);
    if source == Char {
      assert Top(st.formattedLine) == text[0];
      CharStands(o, max, st1.points, st.formattedLine, text[0], c);
    } else if source == Operator {
      OperatorStands(o, max, st1.points, st.formattedLine, text, c);
    }
  }

  lemma {:induction false} AppendKeepsStand(o: Options, st: State, a: Addition)
    requires Stand(o, st.points, st.formattedLine)
    requires (|a.text| > 0 || a.source == Sequence) && (a.source == Char ==> |a.text| == 1)
    ensures var st' := Append(o, st, a.text, a.source, a.c); Stand(o, st'.points, st'.formattedLine)
  {
    var st1 := st.(formattedLine := st.formattedLine + a.text);
    TextKeepsStand(o, st.points, st.formattedLine, a.text);
    if o.maxCodeLength.Some? {
      var max := o.maxCodeLength.value;
      assert st1.formattedLine[|st1.formattedLine| - |a.text|..] == a.text;
      RememberKeepsStand(o, max, st1, a.text, a.source, a.c);
      SplitKeepsStand(o, Remember(o, max, st1, a.text, a.source, a.c), a.c);
    }
  }

  lemma {:induction false} StepKeepsStand(o: Options, st: State, e: Event)
    requires Possible(st, e) && Stand(o, st.points, st.formattedLine)
    ensures Stand(o, Step(o, st, e).points, Step(o, st, e).formattedLine)
  {
    match Appends(st, e)
    case Some(a) => AppendKeepsStand(o, Prepared(st, e), a);
    case None => QuietKeepsStand(o, st, e);
  }

  lemma {:induction false} QuietKeepsStand(o: Options, st: State, e: Event)
    requires Possible(st, e) && Stand(o, st.points, st.formattedLine)
    ensures Stand(o, Quiet(o, st, e).points, Quiet(o, st, e).formattedLine)
  {
    if e.TestSplit? {
      SplitKeepsStand(o, st, e.c);
    }
  }

  // ---------------------------------------------------------------------
  // What a cut does to the text
  // ---------------------------------------------------------------------

  /** Only a cut in the line before it can have made the rest shorter by its leading blanks. */
  lemma {:induction false} CutDropsOnlyBlanks(st: State, at: nat)
    requires at < |st.formattedLine|
    ensures var st' := CutAt(st, at);
            st'.isLineReady && st'.readyFormattedLine == st.formattedLine[..at] &&
            exists n :: at <= n <= |st.formattedLine| && st'.formattedLine == st.formattedLine[n..] &&
                        forall i :: at <= i < n ==> IsWhiteSpace(st.formattedLine[i])
  {
    var rest := st.formattedLine[at..];
    BlanksAreBlank(rest);
    var n := at + Blanks(rest);
    assert rest[Blanks(rest)..] == st.formattedLine[n..];
    assert forall i :: at <= i < n ==> st.formattedLine[i] == rest[i - at];
    assert Blanks(rest) == |rest| ==> st.formattedLine[n..] == "";
  }

  lemma {:induction false} BlanksAreBlank(s: string)
    ensures forall i :: 0 <= i < Blanks(s) ==> IsWhiteSpace(s[i])
  {
    if |s| > 0 && IsWhiteSpace(s[0]) {
      BlanksAreBlank(s[1..]);
      assert forall i :: 0 < i < Blanks(s) ==> s[i] == s[1..][i - 1];
    }
  }

  /** A cut passes over no text of the input, and over its next blanks only if it leaves a blank line at a blank: then over all. */
  lemma {:induction false} OnlyBlanksAreSkipped(st: State, c: Here, ft: FileType)
    ensures var n, ahead := AfterCut(st, c, ft).skipped - st.skipped, c.currentLine[c.charNum + 1..];
            0 <= n <= |ahead| && (forall i :: 0 <= i < n ==> IsWhiteSpace(ahead[i])) &&
            (st.formattedLine != "" || !IsWhiteSpace(CurrentChar(c)) ==> n == 0) &&
            (st.formattedLine == "" && IsWhiteSpace(CurrentChar(c)) && n < |ahead| ==> !IsWhiteSpace(ahead[n]))
  {
    BlanksAreBlank(c.currentLine[c.charNum + 1..]);
  }

  /** The point a kind will have after a cut: a pending one takes the place of a ready one. */
  function Chosen(p: Points, k: Kind): nat
  {
    if GetPending(p, k) > 0 then GetPending(p, k) else Get(p, k)
  }

  lemma {:induction false} CutLine(st: State, at: nat)
    requires at < |st.formattedLine|
    ensures var st' := CutAt(st, at);
            var rest := st.formattedLine[at..];
            st'.comment == st.comment && st'.formattedLine == rest[Blanks(rest)..] &&
            st'.points == if Blanks(rest) == |rest| then NO_POINTS else ShiftReady(Promoted(st.points, at), Blanks(rest))
  {
  }

  /** A split point that survives a cut stands before the same text as before. */
  lemma {:induction false} PointsKeepTheirPlace(st: State, at: nat, k: Kind)
    requires PointsOnLine(st) && at < |st.formattedLine|
    ensures var st' := CutAt(st, at);
            GetPending(st'.points, k) == 0 &&
            (Get(st'.points, k) > 0 ==>
               st'.formattedLine[Get(st'.points, k)..] == st.formattedLine[Chosen(st.points, k)..])
  {
    CutLine(st, at);
    PointsMoveWithText(st.formattedLine, st.points, at, k);
  }

  lemma {:induction false} PointsMoveWithText(line: string, p: Points, at: nat, k: Kind)
    requires OnLine(p, |line|) && at < |line|
    ensures var rest := line[at..];
            var p' := if Blanks(rest) == |rest| then NO_POINTS else ShiftReady(Promoted(p, at), Blanks(rest));
            var line' := rest[Blanks(rest)..];
            GetPending(p', k) == 0 && Get(p', k) <= |line'| &&
            (Get(p', k) > 0 ==> line'[Get(p', k)..] == line[Chosen(p, k)..])
  {
    var n := Blanks(line[at..]);
    PointAfterCut(p, k, at, n);
    if n < |line[at..]| && Chosen(p, k) > at + n {
      DropTwice(line, at + n, Chosen(p, k) - at - n);
      DropTwice(line, at, n);
    }
  }

  lemma {:induction false} PointAfterCut(p: Points, k: Kind, at: nat, n: nat)
    ensures var p' := ShiftReady(Promoted(p, at), n);
            GetPending(p', k) == 0 && Get(p', k) == Less(Less(Chosen(p, k), at), n)
  {
  }

  lemma {:induction false} DropTwice(s: string, a: nat, b: nat)
    requires a + b <= |s|
    ensures s[a..][b..] == s[a + b..]
  {
  }

  // ---------------------------------------------------------------------
  // The choice of the split point
  // ---------------------------------------------------------------------

  /** With any code length the options allow (at least 50), a point that fits is found whenever there is one. */
  lemma {:induction false} BestPointIsFound(p: Points, max: nat)
    requires max >= 50
    ensures BestPoint(p, max) >= MIN_CODE_LENGTH <==> exists k :: Get(p, k) >= MIN_CODE_LENGTH
  {
    assert Get(p, Semi) == p.semi && Get(p, AndOr) == p.andOr && Get(p, Comma) == p.comma;
    assert Get(p, Paren) == p.paren && Get(p, WhiteSpace) == p.whiteSpace;
  }

  lemma {:induction false} FirstPendingIsLeast(p: Points)
    ensures FirstPending(p) == 0 <==> forall k :: GetPending(p, k) == 0
    ensures FirstPending(p) > 0 ==>
              (exists k :: GetPending(p, k) == FirstPending(p)) &&
              forall k :: GetPending(p, k) > 0 ==> FirstPending(p) <= GetPending(p, k)
  {
    assert GetPending(p, Semi) == p.semiPending && GetPending(p, AndOr) == p.andOrPending;
    assert GetPending(p, Comma) == p.commaPending && GetPending(p, Paren) == p.parenPending;
    assert GetPending(p, WhiteSpace) == p.whiteSpacePending;
  }

  /**
   The line is cut at one of the ten points: at one of those that fit if any is far
   enough right, otherwise at the first of the pending ones.
   */
  lemma {:induction false} SplitPointIsAPoint(o: Options, max: nat, p: Points, length: nat, c: Here)
    requires max >= 50
    ensures var at := SplitPoint(o, max, p, length, c);
            if exists k :: Get(p, k) >= MIN_CODE_LENGTH then at >= MIN_CODE_LENGTH && exists k :: Get(p, k) == at
            else at == FirstPending(p)
  {
    BestPointIsFound(p, max);
    assert Get(p, Semi) == p.semi && Get(p, AndOr) == p.andOr && Get(p, Comma) == p.comma;
    assert Get(p, Paren) == p.paren && Get(p, WhiteSpace) == p.whiteSpace;
  }

  /** A split has happened: where the head ends. */
  predicate CutsAt(o: Options, st: State, c: Here, at: nat)
  {
    o.maxCodeLength.Some? && !st.isLineReady && |st.formattedLine| > o.maxCodeLength.value &&
    var st' := TestForTimeToSplit(o, st, c);
    st'.isLineReady && at < |st.formattedLine| && st'.readyFormattedLine == st.formattedLine[..at]
  }

  /** The input line ends with the word or the character that comes next. */
  predicate EndsWithin(c: Here, o: Options)
  {
    if IsWhiteSpace(CurrentChar(c)) || !IsCharPotentialHeader(c.currentLine, c.charNum, o.fileType)
    then |c.currentLine| <= c.charNum + 2
    else |c.currentLine| <= c.charNum + |CurrentWord(c.currentLine, c.charNum, o.fileType)|
  }

  /**
   The head ends at the point `best`; only if what is left is still too long and the input
   line ends, at the furthest of it, the paren point and a white-space point more than 3 beyond it.
   */
  predicate EndsAtOrBeyond(o: Options, st: State, c: Here, best: nat, at: nat)
    requires o.maxCodeLength.Some?
  {
    if |st.formattedLine| > best + o.maxCodeLength.value && EndsWithin(c, o) then
      best <= at && st.points.paren <= at && (st.points.whiteSpace > best + 3 ==> st.points.whiteSpace <= at) &&
      (at == best || at == st.points.paren || (at == st.points.whiteSpace && at > best + 3))
    else at == best
  }

  /**
   Which point wins. A logical operator far enough right beats a semicolon, and both beat
   the others. Of these the paren is taken before white space if it is past it or at seven
   tenths of the length, and the comma before that one if it is past it or at three tenths.
   If the one so chosen is not far enough right, it is the first of the pending points.
   */
  lemma {:induction false} WhoWins(o: Options, st: State, c: Here, at: nat)
    requires CutsAt(o, st, c, at)
    ensures var p, max := st.points, o.maxCodeLength.value;
            var byParen := p.paren > p.whiteSpace || 10 * p.paren >= 7 * max;
            var byComma := p.comma > (if byParen then p.paren else p.whiteSpace) || 10 * p.comma >= 3 * max;
            (p.andOr >= 10 ==> EndsAtOrBeyond(o, st, c, p.andOr, at)) &&
            (p.andOr < 10 <= p.semi ==> EndsAtOrBeyond(o, st, c, p.semi, at)) &&
            (p.andOr < 10 && p.semi < 10 ==>
               (byComma ==> if p.comma >= 10 then EndsAtOrBeyond(o, st, c, p.comma, at) else IsFirstPending(p, at)) &&
               (!byComma && byParen ==>
                  if p.paren >= 10 then EndsAtOrBeyond(o, st, c, p.paren, at) else IsFirstPending(p, at)) &&
               (!byComma && !byParen ==>
                  if p.whiteSpace >= 10 then EndsAtOrBeyond(o, st, c, p.whiteSpace, at) else IsFirstPending(p, at)))
  {
    FirstPendingIsLeast(st.points);
    CutIsAtTheSplitPoint(o, st, c, at);
  }

  predicate IsFirstPending(p: Points, at: nat)
  {
    (exists k :: GetPending(p, k) == at) && forall k :: GetPending(p, k) > 0 ==> at <= GetPending(p, k)
  }

  lemma {:induction false} CutIsAtTheSplitPoint(o: Options, st: State, c: Here, at: nat)
    requires CutsAt(o, st, c, at)
    ensures at == SplitPoint(o, o.maxCodeLength.value, st.points, |st.formattedLine|, c) > 0
  {
    var best := SplitPoint(o, o.maxCodeLength.value, st.points, |st.formattedLine|, c);
    if 0 < best < |st.formattedLine| {
      CutLine(st, best);
      assert |st.formattedLine[..best]| == best && |st.formattedLine[..at]| == at;
    }
  }

  /** A line that is too long is left alone only if a line is waiting or no point lies inside it. */
  lemma {:induction false} WhenItCuts(o: Options, st: State, c: Here)
    requires PointsOnLine(st) && o.maxCodeLength.Some? && o.maxCodeLength.value >= 50
    requires |st.formattedLine| > o.maxCodeLength.value
    ensures var at := SplitPoint(o, o.maxCodeLength.value, st.points, |st.formattedLine|, c);
            TestForTimeToSplit(o, st, c) == st <==>
            st.isLineReady || at == |st.formattedLine| ||
            forall k :: Get(st.points, k) < MIN_CODE_LENGTH && GetPending(st.points, k) == 0
  {
    SplitPointIsAPoint(o, o.maxCodeLength.value, st.points, |st.formattedLine|, c);
    FirstPendingIsLeast(st.points);
  }

  // ---------------------------------------------------------------------
  // No text is lost
  // ---------------------------------------------------------------------

  function NonWhite(s: string): string
  {
    if |s| == 0 then "" else (if IsWhiteSpace(s[0]) then "" else [s[0]]) + NonWhite(s[1..])
  }

  lemma {:induction false} NonWhiteConcat(a: string, b: string)
    ensures NonWhite(a + b) == NonWhite(a) + NonWhite(b)
    decreases |a|
  {
    if |a| == 0 {
      assert a + b == b;
      assert "" + NonWhite(b) == NonWhite(b);
    } else {
      assert (a + b)[1..] == a[1..] + b;
      NonWhiteConcat(a[1..], b);
      var first := if IsWhiteSpace(a[0]) then "" else [a[0]];
      assert first + (NonWhite(a[1..]) + NonWhite(b)) == first + NonWhite(a[1..]) + NonWhite(b);
    }
  }

  lemma {:induction false} NonWhiteSkipsBlanks(s: string)
    ensures NonWhite(s[Blanks(s)..]) == NonWhite(s)
  {
    if |s| > 0 && IsWhiteSpace(s[0]) {
      NonWhiteSkipsBlanks(s[1..]);
      assert s[1..][Blanks(s[1..])..] == s[Blanks(s)..];
      assert "" + NonWhite(s[1..]) == NonWhite(s[1..]);
    } else {
      assert s[0..] == s;
    }
  }

  /** The text held: the line waiting to be read, then the line being assembled. */
  function Held(st: State): string
  {
    (if st.isLineReady then NonWhite(st.readyFormattedLine) else "") + NonWhite(st.formattedLine)
  }

  lemma {:induction false} CutHolds(st: State, at: nat)
    requires !st.isLineReady && at < |st.formattedLine|
    ensures Held(CutAt(st, at)) == Held(st)
  {
    var line := st.formattedLine;
    var rest := line[at..];
    NonWhiteSkipsBlanks(rest);
    NonWhiteConcat(line[..at], rest);
    assert line[..at] + rest == line;
    assert Blanks(rest) == |rest| ==> rest[Blanks(rest)..] == "";
    assert "" + NonWhite(line) == NonWhite(line);
  }

  lemma {:induction false} SplitHolds(o: Options, st: State, c: Here)
    ensures Held(TestForTimeToSplit(o, st, c)) == Held(st)
  {
    if o.maxCodeLength.Some? && !st.isLineReady {
      var at := SplitPoint(o, o.maxCodeLength.value, st.points, |st.formattedLine|, c);
      if 0 < at < |st.formattedLine| {
        CutHolds(st, at);
      }
    }
  }

  lemma {:induction false} AppendHolds(o: Options, st: State, text: string, source: Source, c: Here)
    requires |text| > 0 || source == Sequence
    ensures Held(Append(o, st, text, source, c)) == Held(st) + NonWhite(text)
  {
    var st1 := st.(formattedLine := st.formattedLine + text);
    HeldGrows(st, text);
    if o.maxCodeLength.Some? {
      var st2 := Remember(o, o.maxCodeLength.value, st1, text, source, c);
      assert Held(st2) == Held(st1);
      SplitHolds(o, st2, c);
    }
  }

  lemma {:induction false} HeldGrows(st: State, text: string)
    ensures Held(st.(formattedLine := st.formattedLine + text)) == Held(st) + NonWhite(text)
  {
    NonWhiteConcat(st.formattedLine, text);
    var ready := if st.isLineReady then NonWhite(st.readyFormattedLine) else "";
    assert ready + (NonWhite(st.formattedLine) + NonWhite(text)) == ready + NonWhite(st.formattedLine) + NonWhite(text);
  }

  /** The text that an event adds. */
  function Added(e: Event): string
  {
    if e.AppendText? then NonWhite(e.text) else if e.OpenComment? then NonWhite(e.opener) else ""
  }

  /** The text that an event hands out. */
  function Taken(st: State, e: Event): string
  {
    if e.Drain? && !GivesEmptyLine(st) then NonWhite(st.readyFormattedLine) else ""
  }

  /** A line break overwrites a ready line that has text and was not drained. */
  predicate Overwrites(st: State, e: Event)
  {
    Breaks(st, e) && st.isLineReady && NonWhite(st.readyFormattedLine) != ""
  }

  lemma {:induction false} BreakHolds(st: State)
    ensures Held(BreakLine(st, false)) == NonWhite(st.formattedLine)
    ensures !st.isLineReady || NonWhite(st.readyFormattedLine) == "" ==> Held(BreakLine(st, false)) == Held(st)
  {
    assert "" + NonWhite(st.formattedLine) == NonWhite(st.formattedLine);
    assert NonWhite(st.formattedLine) + NonWhite("") == NonWhite(st.formattedLine);
  }

  /** One event: the text taken and held afterwards is the text held before and added. */
  lemma {:induction false} StepHolds(o: Options, st: State, e: Event)
    requires Possible(st, e)
    ensures !Overwrites(st, e) ==> Taken(st, e) + Held(Step(o, st, e)) == Held(st) + Added(e)
    ensures Overwrites(st, e) ==> |Taken(st, e) + Held(Step(o, st, e))| < |Held(st) + Added(e)|
  {
    match Appends(st, e)
    case Some(a) =>
      PreparedHolds(st, e);
      AppendHolds(o, Prepared(st, e), a.text, a.source, a.c);
      AdditionIsAdded(st, e);
      NothingAdded(Held(Step(o, st, e)));
    case None =>
      QuietHolds(o, st, e);
      NothingAdded(Held(st));
  }

  lemma {:induction false} AdditionIsAdded(st: State, e: Event)
    ensures Added(e) == if Appends(st, e).Some? then NonWhite(Appends(st, e).value.text) else ""
  {
    if e.SpacePad? || e.SpaceAfter? {
      assert NonWhite(" ") == "" + NonWhite(" "[1..]) == "";
    }
  }

  lemma {:induction false} PreparedHolds(st: State, e: Event)
    requires Appends(st, e).Some?
    ensures !Overwrites(st, e) ==> Held(Prepared(st, e)) == Held(st)
    ensures Overwrites(st, e) ==> |Held(Prepared(st, e))| < |Held(st)|
  {
    BreakHolds(st);
    BreakHolds(st.(comment := Some(|st.formattedLine|)));
  }

  lemma {:induction false} QuietHolds(o: Options, st: State, e: Event)
    requires Possible(st, e) && Appends(st, e).None?
    ensures !Overwrites(st, e) ==> Taken(st, e) + Held(Quiet(o, st, e)) == Held(st)
    ensures Overwrites(st, e) ==> |Taken(st, e) + Held(Quiet(o, st, e))| < |Held(st)|
    ensures Added(e) == ""
  {
    NothingAdded(Held(Quiet(o, st, e)));
    match e
    case TestSplit(c) => SplitHolds(o, st, c);
    case Break => BreakHolds(st);
    case Drain => NothingAdded(NonWhite(st.formattedLine));
    case _ =>
  }

  lemma {:induction false} NothingAdded(text: string)
    ensures "" + text == text && text + "" == text
  {
  }

  // ---------------------------------------------------------------------
  // Whole runs
  // ---------------------------------------------------------------------

  predicate CanRun(o: Options, st: State, events: seq<Event>)
    decreases |events|
  {
    |events| == 0 || (Possible(st, events[0]) && CanRun(o, Step(o, st, events[0]), events[1..]))
  }

  function Run(o: Options, st: State, events: seq<Event>): State
    requires CanRun(o, st, events)
    decreases |events|
  {
    if |events| == 0 then st else Run(o, Step(o, st, events[0]), events[1..])
  }

  /** The text of all drained lines, in order. */
  function Output(o: Options, st: State, events: seq<Event>): string
    requires CanRun(o, st, events)
    decreases |events|
  {
    if |events| == 0 then "" else Taken(st, events[0]) + Output(o, Step(o, st, events[0]), events[1..])
  }

  function Input(events: seq<Event>): string
  {
    if |events| == 0 then "" else Added(events[0]) + Input(events[1..])
  }

  /** Every line break comes when the ready line is drained, or holds no text. */
  predicate DrainsInTime(o: Options, st: State, events: seq<Event>)
    requires CanRun(o, st, events)
    decreases |events|
  {
    |events| == 0 || (!Overwrites(st, events[0]) && DrainsInTime(o, Step(o, st, events[0]), events[1..]))
  }

  lemma {:induction false} RunKeepsPointsOnLine(o: Options, st: State, events: seq<Event>)
    requires PointsOnLine(st) && CanRun(o, st, events)
    ensures PointsOnLine(Run(o, st, events))
    decreases |events|
  {
    if |events| > 0 {
      StepKeepsPointsOnLine(o, st, events[0]);
      RunKeepsPointsOnLine(o, Step(o, st, events[0]), events[1..]);
    }
  }

  /**
   Over every run, cuts included, the semicolon, comma, paren and logical points stand at
   a separator of their own kind.
   */
  lemma {:induction false} PointsStandAtSeparators(o: Options, st: State, events: seq<Event>)
    requires CanRun(o, st, events) && Stand(o, st.points, st.formattedLine)
    ensures Stand(o, Run(o, st, events).points, Run(o, st, events).formattedLine)
    decreases |events|
  {
    if |events| > 0 {
      StepKeepsStand(o, st, events[0]);
      PointsStandAtSeparators(o, Step(o, st, events[0]), events[1..]);
    }
  }

  /**
   Conservation: the drained lines, the ready line and the line in assembly hold
   exactly the non-white text appended, in order, if and only if no line break
   overwrites an undrained line. Cutting never loses text.
   */
  lemma {:induction false} TextIsConserved(o: Options, st: State, events: seq<Event>)
    requires CanRun(o, st, events)
    ensures Output(o, st, events) + Held(Run(o, st, events)) == Held(st) + Input(events) <==> DrainsInTime(o, st, events)
    ensures |Output(o, st, events) + Held(Run(o, st, events))| <= |Held(st) + Input(events)|
    decreases |events|
  {
    if |events| == 0 {
      assert "" + Held(st) == Held(st) + "";
    } else {
      var e := events[0];
      var st1 := Step(o, st, e);
      StepHolds(o, st, e);
      TextIsConserved(o, st1, events[1..]);
      ConserveStep(Taken(st, e), Output(o, st1, events[1..]), Held(Run(o, st, events)), Held(st), Added(e),
                   Held(st1), Input(events[1..]));
    }
  }

  lemma {:induction false} ConserveStep(taken: string, output: string, last: string, held: string, added: string, held1: string, input: string)
    requires taken + held1 == held + added || |taken + held1| < |held + added|
    requires |output + last| <= |held1 + input|
    ensures |taken + output + last| <= |held + (added + input)|
    ensures taken + held1 == held + added ==>
              (taken + output + last == held + (added + input) <==> output + last == held1 + input)
    ensures taken + held1 != held + added ==> taken + output + last != held + (added + input)
  {
    assert taken + output + last == taken + (output + last);
    if taken + held1 == held + added {
      assert held + (added + input) == taken + (held1 + input) by {
        assert held + (added + input) == (held + added) + input;
      }
      if taken + (output + last) == taken + (held1 + input) {
        assert (taken + (output + last))[|taken|..] == output + last;
        assert (taken + (held1 + input))[|taken|..] == held1 + input;
      }
    }
  }

  // ---------------------------------------------------------------------
  // Empty lines
  // ---------------------------------------------------------------------

  /** A line handed out; `extra` if it is the empty one before a ready line. */
  datatype Handed = Handed(line: string, extra: bool)

  function HandedOut(o: Options, st: State, events: seq<Event>): seq<Handed>
    requires CanRun(o, st, events)
    decreases |events|
  {
    if |events| == 0 then []
    else
      var later := HandedOut(o, Step(o, st, events[0]), events[1..]);
      if !events[0].Drain? then later
      else [if GivesEmptyLine(st) then Handed("", true) else Handed(st.readyFormattedLine, false)] + later
  }

  /** Every extra empty line comes after a line with text. */
  predicate AfterText(previousHasText: bool, lines: seq<Handed>)
    decreases |lines|
  {
    |lines| == 0 || ((lines[0].extra ==> previousHasText) && AfterText(HasText(lines[0].line), lines[1..]))
  }

  function One(b: bool): nat
  {
    if b then 1 else 0
  }

  /** Requests not yet answered. */
  function Waiting(st: State): nat
  {
    One(st.emptyLines.prepend) + One(st.emptyLines.prependPost) + One(st.emptyLines.appendPost)
  }

  function Asked(e: Event): nat
  {
    One((e.RequestAfter? || e.RequestBefore?) && e.on)
  }

  function AllAsked(events: seq<Event>): nat
  {
    if |events| == 0 then 0 else Asked(events[0]) + AllAsked(events[1..])
  }

  function Extras(lines: seq<Handed>): nat
  {
    if |lines| == 0 then 0 else One(lines[0].extra) + Extras(lines[1..])
  }

  lemma {:induction false} SplitAsksNothing(o: Options, st: State, c: Here)
    ensures var st' := TestForTimeToSplit(o, st, c);
            Waiting(st') <= Waiting(st) && st'.emptyLines.previousHasText == st.emptyLines.previousHasText
  {
  }

  lemma {:induction false} AppendAsksNothing(o: Options, st: State, text: string, source: Source, c: Here)
    requires |text| > 0 || source == Sequence
    ensures var st' := Append(o, st, text, source, c);
            Waiting(st') <= Waiting(st) && st'.emptyLines.previousHasText == st.emptyLines.previousHasText
  {
    var st1 := st.(formattedLine := st.formattedLine + text);
    if o.maxCodeLength.Some? {
      SplitAsksNothing(o, Remember(o, o.maxCodeLength.value, st1, text, source, c), c);
    }
  }

  lemma {:induction false} StepAnswers(o: Options, st: State, e: Event)
    requires Possible(st, e)
    ensures Waiting(Step(o, st, e)) + One(e.Drain? && GivesEmptyLine(st)) <= Waiting(st) + Asked(e)
    ensures !e.Drain? ==> Step(o, st, e).emptyLines.previousHasText == st.emptyLines.previousHasText
  {
    match Appends(st, e)
    case Some(a) =>
      PreparedAsksNothing(st, e);
      AppendAsksNothing(o, Prepared(st, e), a.text, a.source, a.c);
    case None => QuietAnswers(o, st, e);
  }

  lemma {:induction false} PreparedAsksNothing(st: State, e: Event)
    ensures var st' := Prepared(st, e);
            Waiting(st') <= Waiting(st) && st'.emptyLines.previousHasText == st.emptyLines.previousHasText
  {
  }

  lemma {:induction false} QuietAnswers(o: Options, st: State, e: Event)
    requires Possible(st, e)
    ensures Waiting(Quiet(o, st, e)) + One(e.Drain? && GivesEmptyLine(st)) <= Waiting(st) + Asked(e)
    ensures !e.Drain? ==> Quiet(o, st, e).emptyLines.previousHasText == st.emptyLines.previousHasText
  {
    match e
    case TestSplit(c) => SplitAsksNothing(o, st, c);
    case PointerOrReference(index, c) => assert Quiet(o, st, e).emptyLines == st.emptyLines;
    case _ =>
  }

  /**
   Over every run no more empty lines are put in than were asked for, and each one
   follows a line with text: never two together, never after a blank line.
   */
  lemma {:induction false} EmptyLinesWereAsked(o: Options, st: State, events: seq<Event>)
    requires CanRun(o, st, events)
    ensures Extras(HandedOut(o, st, events)) + Waiting(Run(o, st, events)) <= Waiting(st) + AllAsked(events)
    ensures AfterText(st.emptyLines.previousHasText, HandedOut(o, st, events))
    decreases |events|
  {
    if |events| > 0 {
      StepAnswers(o, st, events[0]);
      EmptyLinesWereAsked(o, Step(o, st, events[0]), events[1..]);
      if events[0].Drain? {
        var lines := HandedOut(o, st, events);
        assert lines[1..] == HandedOut(o, Step(o, st, events[0]), events[1..]);
      }
    }
  }

  /** A line break that was asked for is made once: by the next text, not by the one after it. */
  lemma {:induction false} BreaksOnce(o: Options, st: State, a: string, b: string, c: Here)
    requires o.maxCodeLength.None?
    ensures var e1, e2 := AppendText(a, Sequence, true, c), AppendText(b, Sequence, true, c);
            var end := Step(o, Step(o, Step(o, st, SetLineBreak(true)), e1), e2);
            end.isLineReady && end.readyFormattedLine == st.formattedLine && end.formattedLine == a + b &&
            end.spacePadNum == st.nextLineSpacePadNum && end.nextLineSpacePadNum == 0
  {
    assert "" + a == a;
  }

  /** A pad is put behind text that does not end in a blank, or before text that follows in the input; each is counted. */
  lemma {:induction false} PadsAreCounted(o: Options, st: State, c: Here)
    requires o.maxCodeLength.None?
    ensures var text, i := |st.formattedLine| > 0 && !IsWhiteSpace(Top(st.formattedLine)), c.charNum + 1;
            Step(o, st, SpacePad(c)) == if text then st.(formattedLine := st.formattedLine + " ", spacePadNum := st.spacePadNum + 1) else st
    ensures var i := c.charNum + 1;
            Step(o, st, SpaceAfter(c)) == if i < |c.currentLine| && !IsWhiteSpace(c.currentLine[i])
                                          then st.(formattedLine := st.formattedLine + " ", spacePadNum := st.spacePadNum + 1) else st
  {
  }

  /** Where a pointer or reference sign stands the line may be cut, if nothing forbids it and no blank further right was remembered. */
  lemma {:induction false} PointersAreRemembered(o: Options, max: nat, st: State, index: nat, c: Here)
    requires o.maxCodeLength == Some(max) && index < |st.formattedLine| && !MustStayWhole(c)
    ensures Step(o, st, PointerOrReference(index, c)) ==
            if st.shouldKeepLineUnbroken || c.inUnsplittableText || index < st.points.whiteSpace then st
            else if index <= max then st.(points := st.points.(whiteSpace := index))
            else st.(points := st.points.(whiteSpacePending := index))
  {
  }

  /** A line of text, and whether an empty line is asked for behind it. */
  datatype Asking = Asking(text: string, asks: bool)

  /** Each line appended, broken and handed out in turn; twice, where an empty one is due. */
  function LineByLine(lines: seq<Asking>, due: bool, c: Here): seq<Event>
  {
    if |lines| == 0 then []
    else
      Entering(lines[0], c, [Drain] + ((if due then [Drain] else []) + LineByLine(lines[1..], lines[0].asks, c)))
  }

  function Entering(line: Asking, c: Here, rest: seq<Event>): seq<Event>
  {
    [AppendText(line.text, Sequence, false, c)] + ([RequestAfter(line.asks)] + ([Break] + rest))
  }

  function WithEmptyLines(lines: seq<Asking>, due: bool): seq<Handed>
  {
    if |lines| == 0 then []
    else (if due then [Handed("", true)] else []) + ([Handed(lines[0].text, false)] + WithEmptyLines(lines[1..], lines[0].asks))
  }

  predicate ReadyForLine(st: State, due: bool)
  {
    st.formattedLine == "" && !st.isLineReady && st.emptyLines.prependPost == due && st.emptyLines.previousHasText
  }

  /** Between lines with text there is an empty line exactly where one was asked for. */
  lemma {:induction false} AskedLinesComeOut(o: Options, st: State, lines: seq<Asking>, due: bool, c: Here)
    requires o.maxCodeLength.None? && ReadyForLine(st, due) && forall l :: l in lines ==> HasText(l.text)
    ensures CanRun(o, st, LineByLine(lines, due, c)) && HandedOut(o, st, LineByLine(lines, due, c)) == WithEmptyLines(lines, due)
    decreases |lines|, 0
  {
    if |lines| > 0 {
      var line, rest := lines[0], LineByLine(lines[1..], lines[0].asks, c);
      var drains := [Drain] + ((if due then [Drain] else []) + rest);
      assert line in lines;
      var st3 := LineEnters(o, st, line, due, c);
      HandsOut(o, st3, line, due, rest, lines[1..], c);
      LineEntersOut(o, st, line, drains, c, st3);
    }
  }

  predicate IsEntered(o: Options, st: State, line: Asking, c: Here, st3: State)
  {
    st3 == Step(o, Step(o, Step(o, st, AppendText(line.text, Sequence, false, c)), RequestAfter(line.asks)), Break)
  }

  lemma {:induction false} LineEnters(o: Options, st: State, line: Asking, due: bool, c: Here) returns (st3: State)
    requires o.maxCodeLength.None? && ReadyForLine(st, due)
    ensures IsEntered(o, st, line, c, st3)
    ensures st3.isLineReady && st3.readyFormattedLine == line.text && st3.formattedLine == ""
    ensures st3.emptyLines == EmptyLines(due, line.asks, false, true)
  {
    assert "" + line.text == line.text;
    st3 := Step(o, Step(o, Step(o, st, AppendText(line.text, Sequence, false, c)), RequestAfter(line.asks)), Break);
  }

  lemma {:induction false} LineEntersOut(o: Options, st: State, line: Asking, rest: seq<Event>, c: Here, st3: State)
    requires IsEntered(o, st, line, c, st3) && CanRun(o, st3, rest)
    ensures var events := Entering(line, c, rest);
            CanRun(o, st, events) && HandedOut(o, st, events) == HandedOut(o, st3, rest)
  {
    var st1 := Step(o, st, AppendText(line.text, Sequence, false, c));
    var st2 := Step(o, st1, RequestAfter(line.asks));
    Cons(o, st2, Break, rest);
    Cons(o, st1, RequestAfter(line.asks), [Break] + rest);
    Cons(o, st, AppendText(line.text, Sequence, false, c), [RequestAfter(line.asks)] + ([Break] + rest));
    assert [] + HandedOut(o, st3, rest) == HandedOut(o, st3, rest);
  }

  /** The ready line, behind an empty one if that is due. */
  lemma {:induction false} HandsOut(o: Options, st: State, line: Asking, due: bool, rest: seq<Event>, lines: seq<Asking>, c: Here)
    requires o.maxCodeLength.None? && rest == LineByLine(lines, line.asks, c) && forall l :: l in lines ==> HasText(l.text)
    requires HasText(line.text) && st.isLineReady && st.readyFormattedLine == line.text && st.formattedLine == ""
    requires st.emptyLines == EmptyLines(due, line.asks, false, true)
    ensures var events := [Drain] + ((if due then [Drain] else []) + rest);
            CanRun(o, st, events) && HandedOut(o, st, events) ==
            (if due then [Handed("", true)] else []) + ([Handed(line.text, false)] + WithEmptyLines(lines, line.asks))
    decreases |lines|, 1
  {
    var st1 := Drained(st);
    if due {
      var st2 := Drained(st1);
      AskedLinesComeOut(o, st2, lines, line.asks, c);
      Cons(o, st1, Drain, rest);
      Cons(o, st, Drain, [Drain] + rest);
    } else {
      AskedLinesComeOut(o, st1, lines, line.asks, c);
      Cons(o, st, Drain, rest);
      assert [] + rest == rest;
    }
  }

  lemma {:induction false} Cons(o: Options, st: State, e: Event, rest: seq<Event>)
    requires Possible(st, e) && CanRun(o, Step(o, st, e), rest)
    ensures CanRun(o, st, [e] + rest)
    ensures HandedOut(o, st, [e] + rest)
            == (if e.Drain? then [if GivesEmptyLine(st) then Handed("", true) else Handed(st.readyFormattedLine, false)] else [])
               + HandedOut(o, Step(o, st, e), rest)
  {
    assert ([e] + rest)[1..] == rest;
  }

  // ---------------------------------------------------------------------
  // The place of the comment
  // ---------------------------------------------------------------------

  predicate Opens(line: string, n: nat)
  {
    n + 2 <= |line| && (line[n..n + 2] == "//" || line[n..n + 2] == "/*")
  }

  /** What `appendCharInsideComments` asserts of the remembered place, unless there is none or it is 0. */
  predicate CommentIsMarked(st: State)
  {
    st.comment.Some? && st.comment.value > 0 ==> Opens(st.formattedLine, st.comment.value)
  }

  lemma {:induction false} SplitKeepsMark(o: Options, st: State, c: Here)
    requires CommentIsMarked(st)
    ensures CommentIsMarked(TestForTimeToSplit(o, st, c))
  {
  }

  lemma {:induction false} OpenersAreText(line: string, n: nat)
    requires Opens(line, n)
    ensures Blanks(line) <= n
  {
    BlanksAreBlank(line);
    assert line[n] == line[n..n + 2][0] == '/';
  }

  lemma {:induction false} OpenersMove(line: string, at: nat, n: nat)
    requires at <= n && Opens(line, n)
    ensures Opens(line[at..], n - at)
  {
    assert line[at..][n - at..n - at + 2] == line[n..n + 2];
  }

  lemma {:induction false} OpenersAreFound(line: string, n: nat, comment: nat)
    requires Opens(line, n)
    ensures var found := CommentOf(line, Some(comment)); found.Some? && Opens(line, found.value)
  {
    assert line[n] == line[n..n + 2][0] && line[n + 1] == line[n..n + 2][1];
  }

  /** A marked comment behind a cut is marked in what is left. */
  lemma {:induction false} CutKeepsComment(st: State, at: nat, c: Here, ft: FileType)
    requires at < |st.formattedLine| && st.comment.Some? && at <= st.comment.value && Opens(st.formattedLine, st.comment.value)
    ensures var st' := AfterCut(CutAt(st, at), c, ft); st'.comment.Some? && Opens(st'.formattedLine, st'.comment.value)
  {
    var rest := st.formattedLine[at..];
    var n := st.comment.value - at;
    OpenersMove(st.formattedLine, at, st.comment.value);
    OpenersAreText(rest, n);
    OpenersMove(rest, Blanks(rest), n);
    OpenersAreFound(rest[Blanks(rest)..], n - Blanks(rest), st.comment.value);
    CutLine(st, at);
  }

  lemma {:induction false} AppendKeepsMark(o: Options, st: State, text: string, source: Source, c: Here)
    requires |text| > 0 || source == Sequence
    requires CommentIsMarked(st.(formattedLine := st.formattedLine + text))
    ensures CommentIsMarked(Append(o, st, text, source, c))
  {
    var st1 := st.(formattedLine := st.formattedLine + text);
    if o.maxCodeLength.Some? {
      SplitKeepsMark(o, Remember(o, o.maxCodeLength.value, st1, text, source, c), c);
    }
  }

  lemma {:induction false} TextKeepsMark(st: State, text: string)
    requires CommentIsMarked(st)
    ensures CommentIsMarked(st.(formattedLine := st.formattedLine + text))
  {
    if st.comment.Some? && st.comment.value > 0 {
      var n := st.comment.value;
      assert (st.formattedLine + text)[n..n + 2] == st.formattedLine[n..n + 2];
    }
  }

  lemma {:induction false} StepKeepsMark(o: Options, st: State, e: Event)
    requires Possible(st, e) && CommentIsMarked(st)
    ensures CommentIsMarked(Step(o, st, e))
  {
    match Appends(st, e)
    case Some(a) =>
      PreparedKeepsMark(st, e);
      AppendKeepsMark(o, Prepared(st, e), a.text, a.source, a.c);
    case None =>
      if e.TestSplit? {
        SplitKeepsMark(o, st, e.c);
      }
  }

  lemma {:induction false} PreparedKeepsMark(st: State, e: Event)
    requires Possible(st, e) && CommentIsMarked(st) && Appends(st, e).Some?
    ensures var st1 := Prepared(st, e); CommentIsMarked(st1.(formattedLine := st1.formattedLine + Appends(st, e).value.text))
  {
    if e.OpenComment? {
      assert (st.formattedLine + e.opener)[|st.formattedLine|..|st.formattedLine| + 2] == e.opener;
    } else {
      TextKeepsMark(Prepared(st, e), Appends(st, e).value.text);
    }
  }

  /** Over every run the remembered place is none, 0, or that of a comment, cuts included. */
  lemma {:induction false} CommentStaysMarked(o: Options, st: State, events: seq<Event>)
    requires CanRun(o, st, events) && CommentIsMarked(st)
    ensures CommentIsMarked(Run(o, st, events))
    decreases |events|
  {
    if |events| > 0 {
      StepKeepsMark(o, st, events[0]);
      CommentStaysMarked(o, Step(o, st, events[0]), events[1..]);
    }
  }

  // ---------------------------------------------------------------------
  // A run that loses a line
  // ---------------------------------------------------------------------

  /** At a semicolon with text after it, nothing standing against a split. */
  predicate SplitsAfterSemicolon(c: Here)
  {
    !c.inUnsplittableText && !c.inArray && c.okToBreakBlock && CurrentChar(c) == ';' &&
    c.previousNonWSChar !in ['{', '}', '['] && NextChar(c) !in ['{', '}', '[', ']', '/', ' ']
  }

  /** Nothing in assembly, nothing waiting. */
  predicate LineBegins(st: State)
  {
    st.formattedLine == "" && !st.isLineReady && !st.isInLineBreak && !st.shouldKeepLineUnbroken && st.points == NO_POINTS
  }

  lemma {:induction false} ThereIsOne()
    ensures SplitsAfterSemicolon(Context(";x", 0, 'a', false, true, false, false)) && LineBegins(INITIAL)
  {
    assert FirstText(";x", 1) == 'x';
  }

  /** Text, a semicolon and more text than fits: the line is cut after the semicolon. A break then comes before the drain. */
  function LosingRun(before: string, after: string, c: Here): seq<Event>
  {
    [AppendText(before, Sequence, false, c), AppendText(";", Char, false, c), AppendText(after, Sequence, false, c), Break]
  }

  lemma {:induction false} TextFits(o: Options, max: nat, st: State, text: string, c: Here)
    requires o.maxCodeLength == Some(max) && LineBegins(st) && |text| <= max
    ensures Step(o, st, AppendText(text, Sequence, false, c)) == st.(formattedLine := text)
  {
    assert "" + text == text;
  }

  lemma {:induction false} SemicolonIsAPoint(o: Options, max: nat, st: State, mark: string, c: Here)
    requires o.maxCodeLength == Some(max) && |st.formattedLine| + 1 <= max && SplitsAfterSemicolon(c) && mark == ";"
    requires !st.shouldKeepLineUnbroken
    ensures Step(o, st, AppendText(mark, Char, false, c)) ==
            st.(formattedLine := st.formattedLine + mark, points := st.points.(semi := |st.formattedLine| + 1))
  {
  }

  lemma {:induction false} CutAfterSemicolon(o: Options, max: nat, st: State, text: string, c: Here)
    requires o.maxCodeLength == Some(max) && max >= 50 && |text| <= max && !st.isLineReady
    requires MIN_CODE_LENGTH <= |st.formattedLine| <= max < |st.formattedLine| + |text| && !IsWhiteSpace(text[0])
    requires st.points == NO_POINTS.(semi := |st.formattedLine|)
    ensures var st' := Step(o, st, AppendText(text, Sequence, false, c));
            st'.isLineReady && st'.readyFormattedLine == st.formattedLine
  {
    var line := st.formattedLine;
    var whole := line + text;
    assert SplitPoint(o, max, st.points, |whole|, c) == |line|;
    assert whole[..|line|] == line && whole[|line|..] == text;
  }

  lemma {:induction false} NonWhiteEnd(line: string)
    requires |line| > 0 && !IsWhiteSpace(Top(line))
    ensures NonWhite(line) != ""
  {
    assert line == Pop(line) + [Top(line)] && [Top(line)][1..] == [];
    NonWhiteConcat(Pop(line), [Top(line)]);
  }

  lemma {:induction false} OneMoreEvent(o: Options, st: State, events: seq<Event>, st1: State)
    requires |events| > 0 && Possible(st, events[0]) && Step(o, st, events[0]) == st1
    requires CanRun(o, st1, events[1..]) && !DrainsInTime(o, st1, events[1..])
    ensures CanRun(o, st, events) && !DrainsInTime(o, st, events)
  {
  }

  lemma {:induction false} LastIsLost(o: Options, events: seq<Event>, st: State, st1: State, st2: State, st3: State)
    requires |events| == 4 && events[3] == Break && Overwrites(st3, Break)
    requires Possible(st, events[0]) && Step(o, st, events[0]) == st1
    requires Possible(st1, events[1]) && Step(o, st1, events[1]) == st2
    requires Possible(st2, events[2]) && Step(o, st2, events[2]) == st3
    ensures CanRun(o, st, events) && !DrainsInTime(o, st, events)
  {
    var last := events[1..][1..][1..];
    assert last == [Break] && last[1..] == [] && CanRun(o, Step(o, st3, Break), []);
    assert events[1..][1..][0] == events[2] && events[1..][0] == events[1];
    OneMoreEvent(o, st2, events[1..][1..], st3);
    OneMoreEvent(o, st1, events[1..], st2);
    OneMoreEvent(o, st, events, st1);
  }

  /** The line that the split made ready is overwritten, and its text is in no line that comes out. */
  lemma {:induction false} UndrainedLineIsLost(o: Options, max: nat, st: State, before: string, after: string, c: Here)
    requires o.maxCodeLength == Some(max) && max >= 50 && LineBegins(st) && SplitsAfterSemicolon(c)
    requires 9 <= |before| && |before| + 1 <= max < |before| + 1 + |after| && |after| <= max && !IsWhiteSpace(after[0])
    ensures var events := LosingRun(before, after, c);
            CanRun(o, st, events) && !DrainsInTime(o, st, events) &&
            Output(o, st, events) + Held(Run(o, st, events)) != Held(st) + Input(events)
  {
    var events := LosingRun(before, after, c);
    var st1, st2 := Step(o, st, events[0]), st.(formattedLine := before + ";", points := NO_POINTS.(semi := |before| + 1));
    TextFits(o, max, st, before, c);
    SemicolonIsAPoint(o, max, st1, ";", c);
    CutAfterSemicolon(o, max, st2, after, c);
    NonWhiteEnd(before + ";");
    LastIsLost(o, events, st, st1, st2, Step(o, st2, events[2]));
    TextIsConserved(o, st, events);
  }

  // ---------------------------------------------------------------------
  // A long line is cut at its separator
  // ---------------------------------------------------------------------

  /** Nothing near that stands against a split: no brace, bracket, comment, or further punctuation. */
  predicate Clear(c: Here)
  {
    !c.inUnsplittableText && !c.inArray && c.okToBreakBlock && CurrentChar(c) !in ['{', '}'] &&
    c.previousNonWSChar !in ['{', '}', '[', '('] &&
    NextChar(c) !in ['{', '}', '[', ']', '/', ' ', '(', ')', ';', ',', '.', '-', ':', '"', '\'', '*', '&']
  }

  /**
   Where a separator behind `n` characters allows the cut: before a blank, and before a
   paren that follows an operator. It is pending if the line is too long by then.
   */
  function SeparatorPoint(ch: char, n: nat, max: nat, c: Here): Points
  {
    var fits := n + (if ch == ' ' then 0 else 1) <= max;
    match ch
    case ';' => if fits then NO_POINTS.(semi := n + 1) else NO_POINTS.(semiPending := n + 1)
    case ',' => if fits then NO_POINTS.(comma := n + 1) else NO_POINTS.(commaPending := n + 1)
    case '(' =>
      var at := if IsCharPotentialOperator(c.previousNonWSChar) then n else n + 1;
      if fits then NO_POINTS.(paren := at) else NO_POINTS.(parenPending := at)
    case ')' => if fits then NO_POINTS.(whiteSpace := n + 1) else NO_POINTS.(whiteSpacePending := n + 1)
    case _ => if fits then NO_POINTS.(whiteSpace := n) else NO_POINTS.(whiteSpacePending := n)
  }

  predicate Separates(ch: char, c: Here)
  {
    Clear(c) && (ch in [';', ',', '(', ')'] || (ch == ' ' && CurrentChar(c) !in ['(', ')']))
  }

  /** Which characters are remembered, and what next to them forbids it. */
  lemma {:induction false} WhatIsRemembered(o: Options, max: nat, n: nat, ch: char, c: Here)
    requires n > 0
    ensures var next, here, before := NextChar(c), CurrentChar(c), c.previousNonWSChar;
            PointsAfterChar(o, max, NO_POINTS, n + 1, ch, c) != NO_POINTS <==>
            '{' !in [ch, before, next, here] && '}' !in [ch, before, next, here] && before != '[' &&
            next !in ['/', '[', ']'] &&
            ((IsWhiteSpace(ch) && next !in [')', '(', ':'] && here !in [')', '('] && before != '(' &&
              (next == '*' && o.pointerAlignType ==> IsCharPotentialOperator(before)) &&
              (next == '&' && o.referenceAlignType ==> IsCharPotentialOperator(before))) ||
             ch == ',' || (ch == '(' && next !in [')', '(', '"', '\'']) || (ch == ';' && next != ' ') ||
             (ch == ')' && next !in [')', ' ', ';', ',', '.'] && (next == '-' ==> !PointerSymbolFollows(c))))
  {
    assert HasBrace([ch, c.previousNonWSChar, NextChar(c), CurrentChar(c)]) <==>
           '{' in [ch, c.previousNonWSChar, NextChar(c), CurrentChar(c)] || '}' in [ch, c.previousNonWSChar, NextChar(c), CurrentChar(c)];
  }

  lemma {:induction false} SeparatorIsRemembered(o: Options, max: nat, st: State, text: string, c: Here)
    requires o.maxCodeLength == Some(max) && |st.formattedLine| + 1 <= max && |text| == 1 && Separates(text[0], c)
    requires !st.shouldKeepLineUnbroken && st.points == NO_POINTS
    ensures Step(o, st, AppendText(text, Char, false, c)) ==
            st.(formattedLine := st.formattedLine + text, points := SeparatorPoint(text[0], |st.formattedLine|, max, c))
  {
    var ch := text[0];
    var n := |st.formattedLine|;
    assert !HasBrace([ch, c.previousNonWSChar, NextChar(c), CurrentChar(c)]);
    PointAtSeparator(o, max, n, ch, c);
  }

  lemma {:induction false} PointAtSeparator(o: Options, max: nat, n: nat, ch: char, c: Here)
    requires Separates(ch, c)
    ensures PointsAfterChar(o, max, NO_POINTS, n + 1, ch, c) == SeparatorPoint(ch, n, max, c)
  {
    assert !HasBrace([ch, c.previousNonWSChar, NextChar(c), CurrentChar(c)]);
  }

  lemma {:induction false} OnlyPointWins(o: Options, max: nat, p: Points, k: Kind, n: nat, length: nat, c: Here)
    requires max >= 50 && p == Put(NO_POINTS, k, true, n) && n >= MIN_CODE_LENGTH && n <= length
    ensures SplitPoint(o, max, p, length, c) == n
  {
    match k
    case Semi =>
    case AndOr =>
    case Comma =>
    case Paren =>
    case WhiteSpace =>
  }

  /** The only point there is. */
  lemma {:induction false} CutAtTheOnlyPoint(o: Options, max: nat, st: State, text: string, k: Kind, n: nat, c: Here)
    requires o.maxCodeLength == Some(max) && max >= 50 && !st.isLineReady && st.points == Put(NO_POINTS, k, true, n)
    requires MIN_CODE_LENGTH <= n <= |st.formattedLine| <= max < |st.formattedLine| + |text|
    ensures var st' := Step(o, st, AppendText(text, Sequence, false, c));
            st'.isLineReady && st'.readyFormattedLine == st.formattedLine[..n]
  {
    var whole := st.formattedLine + text;
    OnlyPointWins(o, max, st.points, k, n, |whole|, c);
    CutLine(st.(formattedLine := whole), n);
    assert whole[..n] == st.formattedLine[..n];
  }

  function KindOf(ch: char): Kind
  {
    match ch case ';' => Semi case ',' => Comma case '(' => Paren case _ => WhiteSpace
  }

  /** A text, one separator and more text than fits: the line is cut at the separator. */
  lemma {:induction false} CutsAtSeparator(o: Options, max: nat, st: State, before: string, text: string, after: string, c: Here)
    requires o.maxCodeLength == Some(max) && max >= 50 && LineBegins(st) && |text| == 1 && Separates(text[0], c)
    requires MIN_CODE_LENGTH <= |before| && |before| + 1 <= max < |before| + 1 + |after|
    ensures var st1 := Step(o, st, AppendText(before, Sequence, false, c));
            var st2 := Step(o, st1, AppendText(text, Char, false, c));
            var st3 := Step(o, st2, AppendText(after, Sequence, false, c));
            var blank := text[0] == ' ' || (text[0] == '(' && IsCharPotentialOperator(c.previousNonWSChar));
            st3.isLineReady && st3.readyFormattedLine == if blank then before else before + text
  {
    var st1 := st.(formattedLine := before);
    var k, n := KindOf(text[0]), SeparatorPlace(text[0], |before|, c);
    TextFits(o, max, st, before, c);
    SeparatorIsRemembered(o, max, st1, text, c);
    SeparatorPut(text[0], |before|, max, c);
    ThirdCuts(o, max, st1, st1.(formattedLine := before + text, points := Put(NO_POINTS, k, true, n)), text, Char, after, k, n, c);
    Heads(before, text);
  }

  function SeparatorPlace(ch: char, n: nat, c: Here): nat
  {
    if ch == ' ' || (ch == '(' && IsCharPotentialOperator(c.previousNonWSChar)) then n else n + 1
  }

  lemma {:induction false} SeparatorPut(ch: char, n: nat, max: nat, c: Here)
    requires n + 1 <= max && ch in [';', ',', '(', ')', ' ']
    ensures SeparatorPoint(ch, n, max, c) == Put(NO_POINTS, KindOf(ch), true, SeparatorPlace(ch, n, c))
  {
  }

  lemma {:induction false} Heads(before: string, text: string)
    ensures (before + text)[..|before|] == before && (before + text)[..|before| + |text|] == before + text
    ensures |before| > 0 ==> (before + text)[..|before| - 1] == Pop(before)
  {
  }

  /** Once the second text has left one point, the third is cut there. */
  lemma {:induction false} ThirdCuts(o: Options, max: nat, st1: State, st2: State, text: string, source: Source, after: string,
                                     k: Kind, n: nat, c: Here)
    requires |text| > 0 && (source == Char ==> |text| == 1) && Step(o, st1, AppendText(text, source, false, c)) == st2
    requires o.maxCodeLength == Some(max) && max >= 50 && !st2.isLineReady && st2.points == Put(NO_POINTS, k, true, n)
    requires MIN_CODE_LENGTH <= n <= |st2.formattedLine| <= max < |st2.formattedLine| + |after|
    ensures var st3 := Step(o, Step(o, st1, AppendText(text, source, false, c)), AppendText(after, Sequence, false, c));
            st3.isLineReady && st3.readyFormattedLine == st2.formattedLine[..n]
  {
    CutAtTheOnlyPoint(o, max, st2, after, k, n, c);
  }

  /** The point behind (or before) a logical operator, and behind a comparison. */
  lemma {:induction false} CutsAtOperator(o: Options, max: nat, st: State, before: string, op: string, after: string, c: Here)
    requires o.maxCodeLength == Some(max) && max >= 50 && LineBegins(st) && Clear(c)
    requires op in ["||", "&&", "or", "and", "==", "!=", ">=", "<="]
    requires MIN_CODE_LENGTH < |before| && |before| + |op| <= max < |before| + |op| + |after|
    ensures var st1 := Step(o, st, AppendText(before, Sequence, false, c));
            var st2 := Step(o, st1, AppendText(op, Operator, false, c));
            var st3 := Step(o, st2, AppendText(after, Sequence, false, c));
            st3.isLineReady && st3.readyFormattedLine ==
            if !IsLogical(op) || o.breakAfterLogical then before + op else if IsWhiteSpace(Top(before)) then Pop(before) else before
  {
    var st1 := st.(formattedLine := before);
    var k := if IsLogical(op) then AndOr else WhiteSpace;
    var n := if !IsLogical(op) || o.breakAfterLogical then |before| + |op| else if IsWhiteSpace(Top(before)) then |before| - 1 else |before|;
    TextFits(o, max, st, before, c);
    OperatorIsRemembered(o, max, st1, op, c);
    ThirdCuts(o, max, st1, st1.(formattedLine := before + op, points := Put(NO_POINTS, k, true, n)), op, Operator, after, k, n, c);
    Heads(before, op);
  }

  predicate IsLogical(op: string)
  {
    op in ["||", "&&", "or", "and"]
  }

  /** Which operators are remembered, and where: sums and questions only behind an operand, assignments and colons too. */
  lemma {:induction false} WhatOperatorsMark(o: Options, max: nat, line: string, op: string, c: Here)
    requires 1 < |op| <= |line| || (|op| == 1 && |line| > 1)
    requires NextChar(c) != '/' && op !in ["||", "&&", "or", "and"]
    ensures var before := if c.charNum > 0 then c.currentLine[c.charNum - 1] else ' ';
            var operand := c.charNum > 0 && (IsLegalNameChar(before, o.fileType) || before in [')', ']']);
            var exponent := c.charNum > 1 && before in ['e', 'E'] &&
                            (c.currentLine[c.charNum - 2] == '.' || '0' <= c.currentLine[c.charNum - 2] <= '9');
            var n := |line|;
            var p := PointsAfterOperator(o, max, NO_POINTS, line, op, c);
            (op in ["==", "!=", ">=", "<="] ==> p == BlankPoint(n, n <= max)) &&
            (op in ["+", "-"] ==> p == if (operand || before == '"') && !exponent then BlankPoint(n - 1, n <= max + 1) else NO_POINTS) &&
            (op == "?" ==> p == if operand || before == '"' then BlankPoint(n - 1, n <= max + 1) else NO_POINTS) &&
            (op in ["=", ":"] ==>
               var at := if n < max then n else n - 1;
               p == if c.previousNonWSChar == ']' then BlankPoint(at, n <= max + 1)
                    else if operand then BlankPoint(at, n <= max) else NO_POINTS)
  {
  }

  function BlankPoint(n: nat, fits: bool): Points
  {
    if fits then NO_POINTS.(whiteSpace := n) else NO_POINTS.(whiteSpacePending := n)
  }

  lemma {:induction false} OperatorIsRemembered(o: Options, max: nat, st: State, op: string, c: Here)
    requires o.maxCodeLength == Some(max) && 1 < |st.formattedLine| && |st.formattedLine| + |op| <= max && Clear(c)
    requires op in ["||", "&&", "or", "and", "==", "!=", ">=", "<="]
    requires !st.shouldKeepLineUnbroken && st.points == NO_POINTS
    ensures var n := |st.formattedLine|;
            var points := if !IsLogical(op) then NO_POINTS.(whiteSpace := n + |op|)
                          else NO_POINTS.(andOr := if o.breakAfterLogical then n + |op|
                                                   else if IsWhiteSpace(Top(st.formattedLine)) then n - 1 else n);
            Step(o, st, AppendText(op, Operator, false, c)) == st.(formattedLine := st.formattedLine + op, points := points)
  {
    var line := st.formattedLine + op;
    assert line[|line| - |op| - 1] == Top(st.formattedLine);
  }

  // ---------------------------------------------------------------------
  // Lines that are kept whole
  // ---------------------------------------------------------------------

  /** Is the appended text that of a block that must not be broken, or of an array? */
  predicate MustStayWhole(c: Here)
  {
    !c.inUnsplittableText && ((!c.okToBreakBlock && CurrentChar(c) != '{') || c.inArray)
  }

  /**
   When a line is to be kept whole, and what becomes of its points: none is left, but in an
   array outside a statement those there are stay; comments and quotes change nothing.
   */
  lemma {:induction false} WhenKeptWhole(o: Options, max: nat, st: State, text: string, source: Source, c: Here)
    requires o.maxCodeLength == Some(max) && 0 < |text| <= |st.formattedLine| && source != Sequence
    ensures var st' := Remember(o, max, st, text, source, c);
            (st'.shouldKeepLineUnbroken <==> st.shouldKeepLineUnbroken || MustStayWhole(c)) &&
            (st.shouldKeepLineUnbroken || c.inUnsplittableText ==> st' == st) &&
            (!st.shouldKeepLineUnbroken && MustStayWhole(c) ==>
               st'.points == if c.inNisArray && (c.okToBreakBlock || CurrentChar(c) == '{') then st.points else NO_POINTS)
  {
  }

  /** A line to be kept whole that has no points gets none, and is never cut, until splits are allowed again or it ends. */
  lemma {:induction false} KeptWholeIsNotCut(o: Options, st: State, events: seq<Event>)
    requires CanRun(o, st, events) && st.shouldKeepLineUnbroken && st.points == NO_POINTS && !st.isInLineBreak
    requires forall e :: e in events ==> e.AppendText? || e.SpacePad? || e.SpaceAfter? || e.PointerOrReference? || e.TestSplit? || e.OpenComment?
    ensures var end := Run(o, st, events);
            end.points == NO_POINTS && end.shouldKeepLineUnbroken && end.isLineReady == st.isLineReady &&
            end.readyFormattedLine == st.readyFormattedLine && st.formattedLine <= end.formattedLine
    decreases |events|
  {
    if |events| > 0 {
      var e := events[0];
      assert e in events;
      if Appends(st, e).Some? {
        AppendsWhole(o, Prepared(st, e), Appends(st, e).value);
      } else {
        QuietlyWhole(o, st, e);
      }
      forall e' | e' in events[1..] ensures e' in events {
      }
      KeptWholeIsNotCut(o, Step(o, st, e), events[1..]);
    }
  }

  lemma {:induction false} NothingToCutAt(o: Options, st: State, c: Here)
    requires st.points == NO_POINTS
    ensures TestForTimeToSplit(o, st, c) == st
  {
  }

  lemma {:induction false} AppendsWhole(o: Options, st: State, a: Addition)
    requires st.shouldKeepLineUnbroken && st.points == NO_POINTS && (|a.text| > 0 || a.source == Sequence)
    ensures Append(o, st, a.text, a.source, a.c) == st.(formattedLine := st.formattedLine + a.text)
  {
    var st1 := st.(formattedLine := st.formattedLine + a.text);
    NothingToCutAt(o, st1, a.c);
  }

  lemma {:induction false} QuietlyWhole(o: Options, st: State, e: Event)
    requires st.shouldKeepLineUnbroken && st.points == NO_POINTS && Possible(st, e) && Appends(st, e).None?
    requires e.SpacePad? || e.SpaceAfter? || e.PointerOrReference? || e.TestSplit?
    ensures Quiet(o, st, e) == st
  {
    if e.TestSplit? {
      NothingToCutAt(o, st, e.c);
    }
  }
}
