/**
 Line assembly in ASFormatter: characters are appended to `formattedLine`, a
 finished line waits in `readyFormattedLine`, and a line that grows longer than
 `maxCodeLength` is cut at the best of ten remembered split points.
 */
module LineSplitter {
  import opened Stacks
  import opened KeywordSearch
  import opened Characters

  // ---------------------------------------------------------------------
  // State and surroundings
  // ---------------------------------------------------------------------

  /** Indexes of `formattedLine` where it may be cut; 0 means none. */
  datatype Points = Points(semi: nat, andOr: nat, comma: nat, paren: nat, whiteSpace: nat,
                           semiPending: nat, andOrPending: nat, commaPending: nat, parenPending: nat, whiteSpacePending: nat)

  const NO_POINTS := Points(0, 0, 0, 0, 0, 0, 0, 0, 0, 0)

  const INITIAL := State("", "", false, false, false, NO_POINTS, EmptyLines(false, false, false, true), Some(0), 0, 0, 0)

  datatype Kind = Semi | AndOr | Comma | Paren | WhiteSpace

  /**
   Requests for an empty line: before the ready line, before the line in assembly,
   and after it. `previousHasText`: the last line handed out was not empty.
   */
  datatype EmptyLines = EmptyLines(prepend: bool, prependPost: bool, appendPost: bool, previousHasText: bool)

  /** `comment`: where the comment on `formattedLine` starts. `skipped`: the blanks of the input passed over. */
  datatype State = State(formattedLine: string, readyFormattedLine: string, isLineReady: bool, isInLineBreak: bool,
                         shouldKeepLineUnbroken: bool, points: Points, emptyLines: EmptyLines, comment: Option<nat>,
                         spacePadNum: int, nextLineSpacePadNum: int, skipped: nat)

  /** Fixed options; without `maxCodeLength` lines are never cut. */
  datatype Options = Options(maxCodeLength: Option<nat>, fileType: FileType, pointerAlignType: bool,
                             referenceAlignType: bool, breakAfterLogical: bool)

  /** What the formatter knows about the character it is processing. */
  datatype Context = Context(currentLine: string, charNum: nat, previousNonWSChar: char,
                             inUnsplittableText: bool, okToBreakBlock: bool, inArray: bool, inNisArray: bool)

  type Here = c: Context | c.charNum < |c.currentLine| witness Context("x", 0, ' ', false, true, false, false)

  function CurrentChar(c: Here): char
  {
    c.currentLine[c.charNum]
  }

  function NextChar(c: Here): char
  {
    PeekNextChar(c.currentLine, c.charNum)
  }

  function Get(p: Points, k: Kind): nat
  {
    match k case Semi => p.semi case AndOr => p.andOr case Comma => p.comma case Paren => p.paren case WhiteSpace => p.whiteSpace
  }

  function GetPending(p: Points, k: Kind): nat
  {
    match k
    case Semi => p.semiPending
    case AndOr => p.andOrPending
    case Comma => p.commaPending
    case Paren => p.parenPending
    case WhiteSpace => p.whiteSpacePending
  }

  /** A point that still fits the code length is ready to use; a later one is kept as pending. */
  function Put(p: Points, k: Kind, fits: bool, at: nat): Points
  {
    match k
    case Semi => if fits then p.(semi := at) else p.(semiPending := at)
    case AndOr => if fits then p.(andOr := at) else p.(andOrPending := at)
    case Comma => if fits then p.(comma := at) else p.(commaPending := at)
    case Paren => if fits then p.(paren := at) else p.(parenPending := at)
    case WhiteSpace => if fits then p.(whiteSpace := at) else p.(whiteSpacePending := at)
  }

  // ---------------------------------------------------------------------
  // Remembering split points
  // ---------------------------------------------------------------------

  predicate IsOkToSplit(st: State, c: Here)
  {
    !st.shouldKeepLineUnbroken && !c.inUnsplittableText && (c.okToBreakBlock || CurrentChar(c) == '{') && !c.inArray
  }

  /** What the test of `isOkToSplitFormattedLine` leaves behind. */
  function AfterOkToSplit(st: State, c: Here): State
  {
    if st.shouldKeepLineUnbroken || c.inUnsplittableText then st
    else if !c.okToBreakBlock && CurrentChar(c) != '{' then st.(shouldKeepLineUnbroken := true, points := NO_POINTS)
    else if c.inArray then
      st.(shouldKeepLineUnbroken := true, points := if c.inNisArray then st.points else NO_POINTS)
    else st
  }

  predicate PointerSymbolFollows(c: Here)
  {
    ArrowAt(c.currentLine, c.charNum + 1)
  }

  predicate ArrowAt(line: string, i: nat)
    decreases |line| - i
  {
    i < |line| && (if IsWhiteSpace(line[i]) then ArrowAt(line, i + 1) else i + 1 < |line| && line[i] == '-' && line[i + 1] == '>')
  }

  predicate SplitsAtSpace(o: Options, c: Here)
  {
    var next := NextChar(c);
    next !in [')', '(', '/', ':'] && CurrentChar(c) !in [')', '('] && c.previousNonWSChar != '(' &&
    !(next == '*' && !IsCharPotentialOperator(c.previousNonWSChar) && o.pointerAlignType) &&
    !(next == '&' && !IsCharPotentialOperator(c.previousNonWSChar) && o.referenceAlignType)
  }

  predicate HasBrace(chars: seq<char>)
  {
    '{' in chars || '}' in chars
  }

  /** `updateFormattedLineSplitPoints`; `length` counts the appended character. */
  function PointsAfterChar(o: Options, max: nat, p: Points, length: nat, ch: char, c: Here): Points
    requires length > 0
  {
    var next := NextChar(c);
    if next == '/' then p
    else if HasBrace([ch, c.previousNonWSChar, next, CurrentChar(c)]) then p
    else if ch in ['[', ']'] || c.previousNonWSChar == '[' || next in ['[', ']'] then p
    else if IsWhiteSpace(ch) then
      if SplitsAtSpace(o, c) then Put(p, WhiteSpace, length - 1 <= max, length - 1) else p
    else if ch == ')' then
      if next !in [')', ' ', ';', ',', '.'] && !(next == '-' && PointerSymbolFollows(c))
      then Put(p, WhiteSpace, length <= max, length) else p
    else if ch == ',' then Put(p, Comma, length <= max, length)
    else if ch == '(' then
      if next !in [')', '(', '"', '\'']
      then Put(p, Paren, length <= max, if IsCharPotentialOperator(c.previousNonWSChar) then length - 1 else length) else p
    else if ch == ';' then
      if next !in [' ', '}', '/'] then Put(p, Semi, length <= max, length) else p
    else p
  }

  predicate IsInExponent(c: Here)
  {
    c.charNum >= 2 &&
    (c.currentLine[c.charNum - 1] == 'e' || c.currentLine[c.charNum - 1] == 'E') &&
    (c.currentLine[c.charNum - 2] == '.' || '0' <= c.currentLine[c.charNum - 2] <= '9')
  }

  predicate FollowsOperand(o: Options, c: Here, closers: seq<char>)
  {
    c.charNum > 0 && (IsLegalNameChar(c.currentLine[c.charNum - 1], o.fileType) || c.currentLine[c.charNum - 1] in closers)
  }

  /** `updateFormattedLineSplitPointsOperator`; the line already ends with the operator. */
  function PointsAfterOperator(o: Options, max: nat, p: Points, line: string, op: string, c: Here): Points
    requires 0 < |op| <= |line|
  {
    var length := |line|;
    if NextChar(c) == '/' then p
    else if op in ["||", "&&", "or", "and"] then
      if o.breakAfterLogical then Put(p, AndOr, length <= max, length)
      else
        var taken := if length > |op| && IsWhiteSpace(line[length - |op| - 1]) then |op| + 1 else |op|;
        Put(p, AndOr, length - taken <= max, length - taken)
    else if op in ["==", "!=", ">=", "<="] then Put(p, WhiteSpace, length <= max, length)
    else if op in ["+", "-", "?"] then
      if FollowsOperand(o, c, [')', ']', '"']) && !(op in ["+", "-"] && IsInExponent(c))
      then Put(p, WhiteSpace, length - 1 <= max, length - 1) else p
    else if op in ["=", ":"] then
      var at := if length < max then length else length - 1;
      if c.previousNonWSChar == ']' then Put(p, WhiteSpace, length - 1 <= max, at)
      else if FollowsOperand(o, c, [')', ']']) then Put(p, WhiteSpace, length <= max, at)
      else p
    else p
  }

  // ---------------------------------------------------------------------
  // Cutting the line
  // ---------------------------------------------------------------------

  /** The smaller of two points, where 0 means none. */
  function Earlier(a: nat, b: nat): nat
  {
    if a > 0 && (b == 0 || a < b) then a else b
  }

  function FirstPending(p: Points): nat
  {
    Earlier(p.whiteSpacePending, Earlier(p.parenPending, Earlier(p.commaPending, Earlier(p.andOrPending, p.semiPending))))
  }

  const MIN_CODE_LENGTH := 10

  /** The choice among the points that fit, before pending points are considered. */
  function BestPoint(p: Points, max: nat): nat
  {
    var first := if p.andOr >= MIN_CODE_LENGTH then p.andOr else p.semi;
    if first >= MIN_CODE_LENGTH then first
    else
      var withParen := if p.paren > p.whiteSpace || 10 * p.paren >= 7 * max then p.paren else p.whiteSpace;
      if p.comma > withParen || 10 * p.comma >= 3 * max then p.comma else withParen
  }

  predicate AtEndOfCurrentLine(o: Options, c: Here)
  {
    var newCharNum := if !IsWhiteSpace(CurrentChar(c)) && IsCharPotentialHeader(c.currentLine, c.charNum, o.fileType)
                      then |CurrentWord(c.currentLine, c.charNum, o.fileType)| + c.charNum
                      else c.charNum + 2;
    newCharNum + 1 > |c.currentLine|
  }

  function SplitPoint(o: Options, max: nat, p: Points, length: nat, c: Here): nat
  {
    var best := BestPoint(p, max);
    if best < MIN_CODE_LENGTH then FirstPending(p)
    else if length - best > max && AtEndOfCurrentLine(o, c) then
      var later := if p.whiteSpace > best + 3 then p.whiteSpace else best;
      if p.paren > later then p.paren else later
    else best
  }

  function Less(point: nat, cut: nat): nat
  {
    if point > cut then point - cut else 0
  }

  /** All points after `cut` characters were cut off, with the pending ones promoted. */
  function Promoted(p: Points, cut: nat): Points
  {
    Points(Less(if p.semiPending > 0 then p.semiPending else p.semi, cut),
           Less(if p.andOrPending > 0 then p.andOrPending else p.andOr, cut),
           Less(if p.commaPending > 0 then p.commaPending else p.comma, cut),
           Less(if p.parenPending > 0 then p.parenPending else p.paren, cut),
           Less(if p.whiteSpacePending > 0 then p.whiteSpacePending else p.whiteSpace, cut),
           0, 0, 0, 0, 0)
  }

  function ShiftReady(p: Points, cut: nat): Points
  {
    p.(semi := Less(p.semi, cut), andOr := Less(p.andOr, cut), comma := Less(p.comma, cut),
       paren := Less(p.paren, cut), whiteSpace := Less(p.whiteSpace, cut))
  }

  /** The number of leading blanks. */
  function Blanks(s: string): (n: nat)
    ensures n <= |s|
    ensures n < |s| ==> !IsWhiteSpace(s[n])
  {
    if |s| > 0 && IsWhiteSpace(s[0]) then 1 + Blanks(s[1..]) else 0
  }

  function BreakLine(st: State, isSplitLine: bool): State
  {
    var asked := st.emptyLines;
    var queued := asked.(prepend := asked.prependPost);
    st.(isLineReady := true, isInLineBreak := false, readyFormattedLine := st.formattedLine, formattedLine := "",
        points := if isSplitLine then st.points else NO_POINTS,
        emptyLines := if isSplitLine then queued else queued.(prependPost := asked.appendPost, appendPost := false),
        comment := if isSplitLine then st.comment else None,
        spacePadNum := st.nextLineSpacePadNum, nextLineSpacePadNum := 0)
  }

  /** `getNextWord`, from `i` on. */
  function NextWord(line: string, i: nat, ft: FileType): string
    decreases |line| - i
  {
    if i >= |line| then ""
    else if IsWhiteSpace(line[i]) then NextWord(line, i + 1, ft)
    else if !IsLegalNameChar(line[i], ft) then ""
    else line[i..DottedWordEnd(line, i + 1, ft)]
  }

  function DottedWordEnd(line: string, i: nat, ft: FileType): (r: nat)
    requires i <= |line|
    ensures i <= r <= |line|
    decreases |line| - i
  {
    if i == |line| || !IsLegalNameChar(line[i], ft) || line[i] == '.' then i else DottedWordEnd(line, i + 1, ft)
  }

  /** `find` for a sequence of two characters. */
  function FindPair(line: string, pair: string, i: nat): (r: Option<nat>)
    requires |pair| == 2
    ensures r.Some? ==> i <= r.value && r.value + 2 <= |line| && line[r.value..r.value + 2] == pair
    ensures r.None? ==> forall k :: i <= k < |line| - 1 ==> line[k] != pair[0] || line[k + 1] != pair[1]
    decreases |line| - i
  {
    if i + 2 > |line| then None else if line[i..i + 2] == pair then Some(i) else FindPair(line, pair, i + 1)
  }

  /** The first comment on the line, if there was one before. */
  function CommentOf(line: string, comment: Option<nat>): Option<nat>
  {
    var slashes := FindPair(line, "//", 0);
    if comment.None? then None else if slashes.Some? then slashes else FindPair(line, "/*", 0)
  }

  /** The blanks of the input that are passed over when the line left by a cut is blank. */
  function BlanksAhead(line: string, c: Here): nat
  {
    if line == "" && IsWhiteSpace(CurrentChar(c)) then Blanks(c.currentLine[c.charNum + 1..]) else 0
  }

  /** What a cut does to the requests for empty lines. */
  function Requests(asked: EmptyLines, c: Here, ft: FileType): EmptyLines
  {
    var leaves := asked.appendPost && NextWord(c.currentLine, c.charNum, ft) in ["break", "continue"];
    asked.(appendPost := asked.appendPost && !leaves, prependPost := leaves)
  }

  /** What a cut does to the requests, to the place of the comment and in the input. */
  function AfterCut(st: State, c: Here, ft: FileType): State
  {
    st.(emptyLines := Requests(st.emptyLines, c, ft), comment := CommentOf(st.formattedLine, st.comment),
        skipped := st.skipped + BlanksAhead(st.formattedLine, c))
  }

  /** The line broken at `at`, its end in assembly. */
  function HeadOff(st: State, at: nat): State
    requires at < |st.formattedLine|
  {
    BreakLine(st.(formattedLine := st.formattedLine[..at]), true)
      .(formattedLine := st.formattedLine[at..], points := Promoted(st.points, at))
  }

  function WithoutBlanks(st: State): State
  {
    var n := Blanks(st.formattedLine);
    st.(formattedLine := st.formattedLine[n..],
        points := if n == |st.formattedLine| > 0 then NO_POINTS else ShiftReady(st.points, n))
  }

  function CutAt(st: State, at: nat): State
    requires at < |st.formattedLine|
  {
    WithoutBlanks(HeadOff(st, at))
  }

  function TestForTimeToSplit(o: Options, st: State, c: Here): State
  {
    if o.maxCodeLength.None? || |st.formattedLine| <= o.maxCodeLength.value || st.isLineReady then st
    else
      var at := SplitPoint(o, o.maxCodeLength.value, st.points, |st.formattedLine|, c);
      if 0 < at < |st.formattedLine| then AfterCut(CutAt(st, at), c, o.fileType) else st
  }

  // ---------------------------------------------------------------------
  // Appending
  // ---------------------------------------------------------------------

  /** A text is appended as a character, as a sequence without split points, or as an operator. */
  datatype Source = Char | Sequence | Operator

  function Remember(o: Options, max: nat, st: State, text: string, source: Source, c: Here): (r: State)
    requires source == Sequence || 0 < |text| <= |st.formattedLine|
    ensures r == st.(points := r.points, shouldKeepLineUnbroken := r.shouldKeepLineUnbroken)
  {
    if source == Sequence then st
    else
      var st1 := AfterOkToSplit(st, c);
      if !IsOkToSplit(st, c) then st1
      else if source == Char then
        st1.(points := PointsAfterChar(o, max, st1.points, |st1.formattedLine|, text[0], c))
      else st1.(points := PointsAfterOperator(o, max, st1.points, st1.formattedLine, text, c))
  }

  function Append(o: Options, st: State, text: string, source: Source, c: Here): State
    requires |text| > 0 || source == Sequence
  {
    var st1 := st.(formattedLine := st.formattedLine + text);
    if o.maxCodeLength.None? then st1
    else TestForTimeToSplit(o, Remember(o, o.maxCodeLength.value, st1, text, source, c), c)
  }

  datatype Event =
    | AppendText(text: string, source: Source, canBreakLine: bool, c: Here)
    | SpacePad(c: Here)
    | SpaceAfter(c: Here)
    | PointerOrReference(index: nat, c: Here)
    | TestSplit(c: Here)
    | OpenComment(opener: string, c: Here)
    | Break
    | RequestAfter(on: bool)
    | RequestBefore(on: bool)
    | SetSpacePads(pads: int, nextLinePads: int)
    | SetLineBreak(on: bool)
    | AllowSplit
    | Drain

  predicate Possible(st: State, e: Event)
  {
    match e
    case AppendText(text, source, _, _) => (|text| > 0 || source == Sequence) && (source == Char ==> |text| == 1)
    case PointerOrReference(index, _) => index < |st.formattedLine|
    case OpenComment(opener, _) => opener == "//" || opener == "/*"
    case Drain => st.isLineReady
    case _ => true
  }

  predicate Breaks(st: State, e: Event)
  {
    e.Break? || (((e.AppendText? && e.canBreakLine) || e.OpenComment?) && st.isInLineBreak)
  }

  predicate PadsSpace(st: State, e: Event)
  {
    match e
    case SpacePad(_) => |st.formattedLine| > 0 && !IsWhiteSpace(Top(st.formattedLine))
    case SpaceAfter(c) => c.charNum + 1 < |c.currentLine| && !IsWhiteSpace(c.currentLine[c.charNum + 1])
    case _ => false
  }

  function AfterPointer(max: nat, st: State, index: nat, c: Here): State
  {
    var st1 := AfterOkToSplit(st, c);
    if IsOkToSplit(st, c) && index >= st1.points.whiteSpace
    then st1.(points := Put(st1.points, WhiteSpace, index <= max, index)) else st1
  }

  function Broken(st: State, canBreakLine: bool): State
  {
    if canBreakLine && st.isInLineBreak then BreakLine(st, false) else st
  }

  function HasText(line: string): bool
  {
    Blanks(line) < |line|
  }

  /** Does the next line handed out have to be an empty one? */
  predicate GivesEmptyLine(st: State)
  {
    st.emptyLines.prepend && HasText(st.readyFormattedLine) && st.emptyLines.previousHasText
  }

  function Drained(st: State): State
  {
    st.(isLineReady := GivesEmptyLine(st),
        emptyLines := st.emptyLines.(prepend := false,
                                     previousHasText := !GivesEmptyLine(st) && HasText(st.readyFormattedLine)))
  }

  datatype Addition = Addition(text: string, source: Source, c: Here)

  /** The text that an event appends. */
  function Appends(st: State, e: Event): Option<Addition>
  {
    match e
    case AppendText(text, source, _, c) => Some(Addition(text, source, c))
    case OpenComment(opener, c) => Some(Addition(opener, Sequence, c))
    case SpacePad(c) => if PadsSpace(st, e) then Some(Addition(" ", Char, c)) else None
    case SpaceAfter(c) => if PadsSpace(st, e) then Some(Addition(" ", Char, c)) else None
    case _ => None
  }

  /** What happens before the text is appended. */
  function Prepared(st: State, e: Event): State
  {
    match e
    case AppendText(_, _, canBreakLine, _) => Broken(st, canBreakLine)
    case OpenComment(_, _) => Broken(st.(comment := Some(|st.formattedLine|)), true)
    case _ => st.(spacePadNum := st.spacePadNum + 1)
  }

  /** An event that appends nothing. */
  function Quiet(o: Options, st: State, e: Event): State
  {
    match e
    case PointerOrReference(index, c) =>
      if o.maxCodeLength.None? then st else AfterPointer(o.maxCodeLength.value, st, index, c)
    case TestSplit(c) => TestForTimeToSplit(o, st, c)
    case Break => BreakLine(st, false)
    case SetLineBreak(on) => st.(isInLineBreak := on)
    case AllowSplit => st.(shouldKeepLineUnbroken := false)
    case RequestAfter(on) => st.(emptyLines := st.emptyLines.(appendPost := on))
    case RequestBefore(on) => st.(emptyLines := st.emptyLines.(prependPost := on))
    case SetSpacePads(pads, nextLinePads) => st.(spacePadNum := pads, nextLineSpacePadNum := nextLinePads)
    case Drain => Drained(st)
    case _ => st
  }

  function Step(o: Options, st: State, e: Event): State
    requires Possible(st, e)
  {
    match Appends(st, e)
    case Some(a) => Append(o, Prepared(st, e), a.text, a.source, a.c)
    case None => Quiet(o, st, e)
  }

  // ---------------------------------------------------------------------
  // For the methods
  // ---------------------------------------------------------------------

  lemma {:induction false} OneBlankLess(line: string, i: nat)
    requires i < |line| && IsWhiteSpace(line[i])
    ensures Blanks(line[i..]) == 1 + Blanks(line[i + 1..])
  {
    assert line[i..][1..] == line[i + 1..];
  }

  lemma {:induction false} CommentSteps(o: Options, st: State, opener: string, c: Here)
    requires opener == "//" || opener == "/*"
    ensures Step(o, st, OpenComment(opener, c)) ==
            Append(o, Broken(st.(comment := Some(|st.formattedLine|)), true), opener, Sequence, c)
  {
  }

  function Padded(o: Options, st: State, pads: bool, blank: string, c: Here): State
    requires |blank| == 1
  {
    if pads then Append(o, st.(spacePadNum := st.spacePadNum + 1), blank, Char, c) else st
  }

  lemma {:induction false} PadSteps(o: Options, st: State, e: Event, pads: bool, blank: string, c: Here)
    requires blank == " " && (e == SpacePad(c) || e == SpaceAfter(c)) && pads == PadsSpace(st, e)
    ensures Step(o, st, e) == Padded(o, st, pads, blank, c)
  {
  }

  // ---------------------------------------------------------------------
  // The formatter object
  // ---------------------------------------------------------------------

  class LineAssembler {
    const options: Options
    var formattedLine: string
    var readyFormattedLine: string
    var isLineReady: bool
    var isInLineBreak: bool
    var shouldKeepLineUnbroken: bool
    var points: Points
    var emptyLines: EmptyLines
    var formattedLineCommentNum: Option<nat>
    var spacePadNum: int
    var nextLineSpacePadNum: int
    var skipped: nat

    function View(): State
      reads this
    {
      State(formattedLine, readyFormattedLine, isLineReady, isInLineBreak, shouldKeepLineUnbroken, points,
            emptyLines, formattedLineCommentNum, spacePadNum, nextLineSpacePadNum, skipped)
    }

    constructor (options: Options)
      ensures this.options == options && View() == INITIAL
    {
      this.options := options;
      formattedLine, readyFormattedLine, isLineReady, isInLineBreak := "", "", false, false;
      shouldKeepLineUnbroken, points := false, NO_POINTS;
      emptyLines := EmptyLines(false, false, false, true);
      formattedLineCommentNum, spacePadNum, nextLineSpacePadNum, skipped := Some(0), 0, 0, 0;
    }

    method DoBreakLine(isSplitLine: bool)
      modifies this
      ensures View() == BreakLine(old(View()), isSplitLine)
    {
      isLineReady := true;
      isInLineBreak := false;
      spacePadNum := nextLineSpacePadNum;
      nextLineSpacePadNum := 0;
      readyFormattedLine := formattedLine;
      formattedLine := "";
      emptyLines := emptyLines.(prepend := emptyLines.prependPost);
      if !isSplitLine {
        formattedLineCommentNum := None;
        points := NO_POINTS;
        if emptyLines.appendPost {
          emptyLines := emptyLines.(appendPost := false, prependPost := true);
        } else {
          emptyLines := emptyLines.(prependPost := false);
        }
      }
    }

    method IsOkToSplitFormattedLine(c: Here) returns (ok: bool)
      modifies this`shouldKeepLineUnbroken, this`points
      ensures View() == AfterOkToSplit(old(View()), c) && ok == IsOkToSplit(old(View()), c)
    {
      if shouldKeepLineUnbroken || c.inUnsplittableText {
        return false;
      }
      if !c.okToBreakBlock && CurrentChar(c) != '{' {
        shouldKeepLineUnbroken := true;
        points := NO_POINTS;
        return false;
      }
      if c.inArray {
        shouldKeepLineUnbroken := true;
        if !c.inNisArray {
          points := NO_POINTS;
        }
        return false;
      }
      return true;
    }

    method AdjustPoints(splitPoint: nat)
      modifies this`points
      ensures points == Promoted(old(points), splitPoint)
    {
      points := ShiftReady(points, splitPoint);
      if points.semiPending > 0 {
        points := points.(semi := Less(points.semiPending, splitPoint), semiPending := 0);
      }
      if points.andOrPending > 0 {
        points := points.(andOr := Less(points.andOrPending, splitPoint), andOrPending := 0);
      }
      if points.commaPending > 0 {
        points := points.(comma := Less(points.commaPending, splitPoint), commaPending := 0);
      }
      if points.parenPending > 0 {
        points := points.(paren := Less(points.parenPending, splitPoint), parenPending := 0);
      }
      if points.whiteSpacePending > 0 {
        points := points.(whiteSpace := Less(points.whiteSpacePending, splitPoint), whiteSpacePending := 0);
      }
    }

    method TestForTimeToSplitFormattedLine(c: Here)
      modifies this
      ensures View() == TestForTimeToSplit(options, old(View()), c)
    {
      if options.maxCodeLength.Some? && |formattedLine| > options.maxCodeLength.value && !isLineReady {
        var splitPoint := SplitPoint(options, options.maxCodeLength.value, points, |formattedLine|, c);
        if splitPoint > 0 && splitPoint < |formattedLine| {
          SplitAt(splitPoint, c);
        }
      }
    }

    method SplitAt(splitPoint: nat, c: Here)
      requires 0 < splitPoint < |formattedLine|
      modifies this
      ensures View() == AfterCut(CutAt(old(View()), splitPoint), c, options.fileType)
    {
      CutHead(splitPoint);
      Settle(c);
    }

    /** What is left of the line after a cut is put in order. */
    method Settle(c: Here)
      modifies this
      ensures View() == AfterCut(WithoutBlanks(old(View())), c, options.fileType)
    {
      ghost var st := View();
      AskForEmptyLine(c);
      ghost var asked := View();
      assert asked == st.(emptyLines := Requests(st.emptyLines, c, options.fileType));
      DropBlanks();
      assert View() == WithoutBlanks(st).(emptyLines := asked.emptyLines);
      GoForward(c);
      FindComment();
    }

    method CutHead(splitPoint: nat)
      requires splitPoint < |formattedLine|
      modifies this
      ensures View() == HeadOff(old(View()), splitPoint)
    {
      var splitLine := formattedLine[splitPoint..];
      formattedLine := formattedLine[..splitPoint];
      DoBreakLine(true);
      formattedLine := splitLine;
      AdjustPoints(splitPoint);
    }

    method AskForEmptyLine(c: Here)
      modifies this`emptyLines
      ensures emptyLines == Requests(old(emptyLines), c, options.fileType)
    {
      var nextWord := NextWord(c.currentLine, c.charNum, options.fileType);
      if emptyLines.appendPost && (nextWord == "break" || nextWord == "continue") {
        emptyLines := emptyLines.(appendPost := false, prependPost := true);
      } else {
        emptyLines := emptyLines.(prependPost := false);
      }
    }

    /** No line in assembly is left blank, or with leading blanks. */
    method DropBlanks()
      modifies this`formattedLine, this`points
      ensures View() == WithoutBlanks(old(View()))
    {
      var firstText := Blanks(formattedLine);
      if firstText == |formattedLine| && |formattedLine| > 0 {
        formattedLine := "";
        points := NO_POINTS;
      } else if firstText > 0 {
        formattedLine := formattedLine[firstText..];
        points := ShiftReady(points, firstText);
      }
    }

    /** `goForward` over the blanks of the input. */
    method GoForward(c: Here)
      modifies this`skipped
      ensures skipped == old(skipped) + BlanksAhead(formattedLine, c)
    {
      if formattedLine == "" && IsWhiteSpace(CurrentChar(c)) {
        var n := CountBlanks(c.currentLine, c.charNum + 1);
        skipped := skipped + n;
      }
    }

    method CountBlanks(line: string, start: nat) returns (n: nat)
      requires start <= |line|
      ensures n == Blanks(line[start..])
    {
      n := 0;
      while start + n < |line| && IsWhiteSpace(line[start + n])
        invariant start + n <= |line| && n + Blanks(line[start + n..]) == Blanks(line[start..])
      {
        OneBlankLess(line, start + n);
        n := n + 1;
      }
    }

    method FindComment()
      modifies this`formattedLineCommentNum
      ensures formattedLineCommentNum == CommentOf(formattedLine, old(formattedLineCommentNum))
    {
      if formattedLineCommentNum.Some? {
        formattedLineCommentNum := FindPair(formattedLine, "//", 0);
        if formattedLineCommentNum.None? {
          formattedLineCommentNum := FindPair(formattedLine, "/*", 0);
        }
      }
    }

    method AppendText(text: string, source: Source, canBreakLine: bool, c: Here)
      requires Possible(View(), Event.AppendText(text, source, canBreakLine, c))
      modifies this
      ensures View() == Step(options, old(View()), Event.AppendText(text, source, canBreakLine, c))
    {
      AppendTo(text, source, canBreakLine, c);
    }

    method AppendTo(text: string, source: Source, canBreakLine: bool, c: Here)
      requires |text| > 0 || source == Sequence
      modifies this
      ensures View() == Append(options, Broken(old(View()), canBreakLine), text, source, c)
    {
      if canBreakLine && isInLineBreak {
        DoBreakLine(false);
      }
      formattedLine := formattedLine + text;
      if options.maxCodeLength.Some? {
        RememberPoint(options.maxCodeLength.value, text, source, c);
        if |formattedLine| > options.maxCodeLength.value {
          TestForTimeToSplitFormattedLine(c);
        }
      }
    }

    method RememberPoint(max: nat, text: string, source: Source, c: Here)
      requires source == Sequence || 0 < |text| <= |formattedLine|
      modifies this`shouldKeepLineUnbroken, this`points
      ensures View() == Remember(options, max, old(View()), text, source, c)
    {
      if source != Sequence {
        var ok := IsOkToSplitFormattedLine(c);
        if ok {
          points := if source == Char then PointsAfterChar(options, max, points, |formattedLine|, text[0], c)
                    else PointsAfterOperator(options, max, points, formattedLine, text, c);
        }
      }
    }

    method AppendSpacePad(c: Here)
      modifies this
      ensures View() == Step(options, old(View()), SpacePad(c))
    {
      ghost var st := View();
      var pads := |formattedLine| > 0 && !IsWhiteSpace(formattedLine[|formattedLine| - 1]);
      PadIf(pads, " ", c);
      PadSteps(options, st, SpacePad(c), pads, " ", c);
    }

    method AppendSpaceAfter(c: Here)
      modifies this
      ensures View() == Step(options, old(View()), SpaceAfter(c))
    {
      ghost var st := View();
      var pads := c.charNum + 1 < |c.currentLine| && !IsWhiteSpace(c.currentLine[c.charNum + 1]);
      PadIf(pads, " ", c);
      PadSteps(options, st, SpaceAfter(c), pads, " ", c);
    }

    method PadIf(pads: bool, blank: string, c: Here)
      requires |blank| == 1
      modifies this
      ensures View() == Padded(options, old(View()), pads, blank, c)
    {
      if pads {
        spacePadNum := spacePadNum + 1;
        AppendTo(blank, Char, false, c);
      }
    }

    method UpdatePointerOrReference(index: nat, c: Here)
      requires index < |formattedLine|
      modifies this
      ensures View() == Step(options, old(View()), PointerOrReference(index, c))
    {
      if options.maxCodeLength.Some? {
        var ok := IsOkToSplitFormattedLine(c);
        if ok && index >= points.whiteSpace {
          points := Put(points, WhiteSpace, index <= options.maxCodeLength.value, index);
        }
      }
    }

    method StartComment(opener: string, c: Here)
      requires opener == "//" || opener == "/*"
      modifies this
      ensures View() == Step(options, old(View()), OpenComment(opener, c))
    {
      ghost var st := View();
      formattedLineCommentNum := Some(|formattedLine|);
      AppendTo(opener, Sequence, true, c);
      CommentSteps(options, st, opener, c);
    }

    /** `nextLine` hands out an empty line before the ready one, or the ready one. */
    method TakeLine() returns (line: string)
      requires isLineReady
      modifies this`isLineReady, this`emptyLines
      ensures View() == Step(options, old(View()), Drain)
      ensures line == if old(GivesEmptyLine(View())) then "" else readyFormattedLine
    {
      var hasText := Blanks(readyFormattedLine) < |readyFormattedLine|;
      if emptyLines.prepend && hasText && emptyLines.previousHasText {
        line := "";
        emptyLines := emptyLines.(previousHasText := false);
      } else {
        isLineReady := false;
        line := readyFormattedLine;
        emptyLines := emptyLines.(previousHasText := hasText);
      }
      emptyLines := emptyLines.(prepend := false);
    }
  }
}
