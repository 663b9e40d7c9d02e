/**
 ASStreamIterator: reading a text line by line, with look-ahead that can be undone.
 */
module StreamIterator {
  import opened Stacks

  predicate IsEol(ch: char)
  {
    ch == '\n' || ch == '\r'
  }

  /** The position of the first end-of-line character from `pos` on, or the end of the text. */
  function LineEndFrom(data: string, pos: nat): (end: nat)
    requires pos <= |data|
    ensures pos <= end <= |data|
    ensures end < |data| ==> IsEol(data[end])
    decreases |data| - pos
  {
    if pos == |data| || IsEol(data[pos]) then pos else LineEndFrom(data, pos + 1)
  }

  lemma {:induction false} NoEolBefore(data: string, pos: nat)
    requires pos <= |data|
    ensures forall i :: pos <= i < LineEndFrom(data, pos) ==> !IsEol(data[i])
    decreases |data| - pos
  {
    if pos < |data| && !IsEol(data[pos]) {
      NoEolBefore(data, pos + 1);
    }
  }

  lemma {:induction false} FirstEol(data: string, pos: nat, end: nat)
    requires pos <= end <= |data| && (forall i :: pos <= i < end ==> !IsEol(data[i]))
    requires end == |data| || IsEol(data[end])
    ensures LineEndFrom(data, pos) == end
    decreases end - pos
  {
    if pos < end {
      FirstEol(data, pos + 1, end);
    }
  }

  datatype Eol = WindowsEol | LinuxEol | MacOldEol

  /** CR LF and LF CR are one token; a single CR is a Mac line end and a single LF a Linux one. */
  function EolAt(data: string, at: nat): Eol
    requires at < |data| && IsEol(data[at])
  {
    if at + 1 < |data| && IsEol(data[at + 1]) && data[at + 1] != data[at] then WindowsEol
    else if data[at] == '\n' then LinuxEol
    else MacOldEol
  }

  function AfterEol(data: string, at: nat): (next: nat)
    requires at < |data| && IsEol(data[at])
    ensures at < next <= |data|
  {
    if EolAt(data, at).WindowsEol? then at + 2 else at + 1
  }

  // ---------------------------------------------------------------------
  // The text as lines and end-of-line tokens
  // ---------------------------------------------------------------------

  function LinesFrom(data: string, pos: nat): (r: seq<string>)
    requires pos <= |data|
    ensures |r| > 0
    decreases |data| - pos
  {
    var end := LineEndFrom(data, pos);
    [data[pos..end]] + if end == |data| then [] else LinesFrom(data, AfterEol(data, end))
  }

  function EolsFrom(data: string, pos: nat): seq<string>
    requires pos <= |data|
    decreases |data| - pos
  {
    var end := LineEndFrom(data, pos);
    if end == |data| then [] else [data[end..AfterEol(data, end)]] + EolsFrom(data, AfterEol(data, end))
  }

  function Interleaved(lines: seq<string>, eols: seq<string>): string
    requires |lines| == |eols| + 1
  {
    if |eols| == 0 then lines[0] else lines[0] + eols[0] + Interleaved(lines[1..], eols[1..])
  }

  lemma {:induction false} OneMoreLine(data: string, pos: nat)
    requires pos <= |data|
    ensures |LinesFrom(data, pos)| == |EolsFrom(data, pos)| + 1
    decreases |data| - pos
  {
    var end := LineEndFrom(data, pos);
    if end < |data| {
      OneMoreLine(data, AfterEol(data, end));
    }
  }

  lemma {:induction false} InterleavedStep(line: string, eol: string, lines: seq<string>, eols: seq<string>)
    requires |lines| == |eols| + 1
    ensures Interleaved([line] + lines, [eol] + eols) == line + eol + Interleaved(lines, eols)
  {
    assert ([line] + lines)[1..] == lines && ([eol] + eols)[1..] == eols;
  }

  /** Lines and tokens, put back together, are the text. */
  lemma {:induction false} LinesRebuildText(data: string, pos: nat)
    requires pos <= |data|
    ensures |LinesFrom(data, pos)| == |EolsFrom(data, pos)| + 1
    ensures Interleaved(LinesFrom(data, pos), EolsFrom(data, pos)) == data[pos..]
    decreases |data| - pos
  {
    OneMoreLine(data, pos);
    var end := LineEndFrom(data, pos);
    if end == |data| {
      assert data[pos..end] == data[pos..];
    } else {
      var next := AfterEol(data, end);
      var lines, eols := LinesFrom(data, next), EolsFrom(data, next);
      LinesRebuildText(data, next);
      assert Interleaved([data[pos..end]] + lines, [data[end..next]] + eols) == data[pos..] by {
        InterleavedStep(data[pos..end], data[end..next], lines, eols);
        ThreePieces(data, pos, end, next);
      }
    }
  }

  lemma {:induction false} ThreePieces(data: string, pos: nat, end: nat, next: nat)
    requires pos <= end <= next <= |data|
    ensures data[pos..end] + data[end..next] + data[next..] == data[pos..]
  {
  }

  /**
   The decomposition is the greedy one: lines hold no line end, every token is one or two
   different line-end characters, and a single one is not followed by its partner.
   */
  lemma {:induction false} TokensAreGreedy(data: string, pos: nat)
    requires pos <= |data|
    ensures forall i, j :: 0 <= i < |LinesFrom(data, pos)| && 0 <= j < |LinesFrom(data, pos)[i]| ==> !IsEol(LinesFrom(data, pos)[i][j])
    ensures var lines, eols := LinesFrom(data, pos), EolsFrom(data, pos);
            |lines| == |eols| + 1 &&
            forall i :: 0 <= i < |eols| ==>
              eols[i] in ["\r\n", "\n\r", "\n", "\r"] &&
              (|eols[i]| == 1 && lines[i + 1] == "" && i + 1 < |eols| ==> eols[i + 1][0] == eols[i][0])
    decreases |data| - pos
  {
    OneMoreLine(data, pos);
    NoEolBefore(data, pos);
    var end := LineEndFrom(data, pos);
    if end < |data| {
      var next := AfterEol(data, end);
      TokensAreGreedy(data, next);
      EolIs(data, end);
      var later := EolsFrom(data, next);
      if next == end + 1 && |later| > 0 && LinesFrom(data, next)[0] == "" {
        assert LineEndFrom(data, next) == next && later[0][0] == data[next];
      }
    }
  }

  lemma {:induction false} EolIs(data: string, at: nat)
    requires at < |data| && IsEol(data[at])
    ensures var eol := data[at..AfterEol(data, at)];
            eol in ["\r\n", "\n\r", "\n", "\r"] && (|eol| == 2 <==> EolAt(data, at).WindowsEol?) &&
            (eol == "\n" <==> EolAt(data, at).LinuxEol?) && (eol == "\r" <==> EolAt(data, at).MacOldEol?)
  {
    var next := AfterEol(data, at);
    assert data[at..next] == if next == at + 2 then [data[at], data[at + 1]] else [data[at]];
  }

  // ---------------------------------------------------------------------
  // The stream as the iterator sees it
  // ---------------------------------------------------------------------

  datatype Cursor = Cursor(pos: nat, eof: bool, windows: nat, linux: nat, macOld: nat, peekStart: nat)

  predicate Inside(data: string, c: Cursor)
  {
    c.pos <= |data|
  }

  function Line(data: string, c: Cursor): string
    requires Inside(data, c)
  {
    if c.eof then "" else data[c.pos..LineEndFrom(data, c.pos)]
  }

  function Count(c: Cursor, eol: Eol): Cursor
  {
    match eol
    case WindowsEol => c.(windows := c.windows + 1)
    case LinuxEol => c.(linux := c.linux + 1)
    case MacOldEol => c.(macOld := c.macOld + 1)
  }

  /** A line end that is the last character of the file is not counted. */
  function AfterNext(data: string, c: Cursor): (r: Cursor)
    requires Inside(data, c)
    ensures Inside(data, r)
  {
    if c.eof then c
    else
      var end := LineEndFrom(data, c.pos);
      if end == |data| then c.(pos := end, eof := true)
      else (if end + 1 == |data| then c else Count(c, EolAt(data, end))).(pos := AfterEol(data, end))
  }

  /** Looking ahead counts nothing, and meets the end of the file already after a last line end. */
  function AfterPeek(data: string, c: Cursor): (r: Cursor)
    requires Inside(data, c)
    ensures Inside(data, r)
  {
    var start := if c.peekStart == 0 then c.pos else c.peekStart;
    var end := LineEndFrom(data, c.pos);
    if end == |data| then c.(pos := end, eof := true, peekStart := start)
    else
      var next := AfterEol(data, end);
      c.(pos := next, eof := end + 1 == |data|, peekStart := start)
  }

  function AfterReset(data: string, c: Cursor): Cursor
    requires c.peekStart <= |data|
  {
    c.(pos := c.peekStart, eof := false, peekStart := 0)
  }

  /** All lines that `nextLine` returns until the end of the file. */
  function NextLines(data: string, c: Cursor): seq<string>
    requires Inside(data, c)
    decreases !c.eof, |data| - c.pos
  {
    if c.eof then [] else [Line(data, c)] + NextLines(data, AfterNext(data, c))
  }

  function LastCursor(data: string, c: Cursor): Cursor
    requires Inside(data, c)
    decreases !c.eof, |data| - c.pos
  {
    if c.eof then c else LastCursor(data, AfterNext(data, c))
  }

  function Counted(c: Cursor): nat
  {
    c.windows + c.linux + c.macOld
  }

  /** The text from `pos` on ends in a line end of one character. */
  predicate EndsInSingleEol(data: string, pos: nat)
    requires pos <= |data|
  {
    var eols := EolsFrom(data, pos);
    |eols| > 0 && IsEol(Top(data)) && |Top(eols)| == 1
  }

  lemma {:induction false} LaterEols(data: string, pos: nat)
    requires pos <= |data| && LineEndFrom(data, pos) < |data|
    ensures var end := LineEndFrom(data, pos);
            EndsInSingleEol(data, pos) <==> end + 1 == |data| || EndsInSingleEol(data, AfterEol(data, end))
  {
    var end := LineEndFrom(data, pos);
    var next := AfterEol(data, end);
    if |EolsFrom(data, next)| == 0 {
      var last := LineEndFrom(data, next);
      assert last == |data|;
      NoEolBefore(data, next);
      assert next < |data| ==> !IsEol(data[|data| - 1]);
    }
  }

  /** Reading to the end gives every line; every line end is counted but a single one that ends the file. */
  lemma {:induction false} ReadsEveryLine(data: string, c: Cursor)
    requires Inside(data, c) && !c.eof
    ensures NextLines(data, c) == LinesFrom(data, c.pos)
    ensures Counted(LastCursor(data, c)) + (if EndsInSingleEol(data, c.pos) then 1 else 0)
            == Counted(c) + |EolsFrom(data, c.pos)|
    decreases |data| - c.pos
  {
    var c1 := AfterNext(data, c);
    if c1.eof {
      assert NextLines(data, c1) == [];
    } else {
      ReadsEveryLine(data, c1);
      LaterEols(data, c.pos);
    }
  }

  /** The tokens that are counted: all but a single line-end character that ends the file. */
  function CountedEols(data: string, pos: nat): seq<string>
    requires pos <= |data|
  {
    if EndsInSingleEol(data, pos) then Pop(EolsFrom(data, pos)) else EolsFrom(data, pos)
  }

  /** How many tokens are of two characters, or one given token. */
  function TwoCharacter(eols: seq<string>): nat
  {
    if |eols| == 0 then 0 else (if |eols[0]| == 2 then 1 else 0) + TwoCharacter(eols[1..])
  }

  function Number(eols: seq<string>, eol: string): nat
  {
    if |eols| == 0 then 0 else (if eols[0] == eol then 1 else 0) + Number(eols[1..], eol)
  }

  /** When the file is read, each counter has grown by the tokens of its own kind. */
  lemma {:induction false} EachKindIsCounted(data: string, c: Cursor)
    requires Inside(data, c) && !c.eof
    ensures var last, eols := LastCursor(data, c), CountedEols(data, c.pos);
            last.windows == c.windows + TwoCharacter(eols) && last.linux == c.linux + Number(eols, "\n") &&
            last.macOld == c.macOld + Number(eols, "\r")
    decreases |data| - c.pos
  {
    var c1 := AfterNext(data, c);
    var end := LineEndFrom(data, c.pos);
    if end == |data| {
      assert c1.eof && LastCursor(data, c1) == c1;
    } else {
      var next := AfterEol(data, end);
      EachKindIsCounted(data, c1);
      EolIs(data, end);
      LaterEols(data, c.pos);
      CountedStep(data, c.pos);
    }
  }

  lemma {:induction false} CountedStep(data: string, pos: nat)
    requires pos <= |data| && LineEndFrom(data, pos) < |data|
    ensures var end := LineEndFrom(data, pos);
            CountedEols(data, pos) == if end + 1 == |data| then []
                                      else [data[end..AfterEol(data, end)]] + CountedEols(data, AfterEol(data, end))
  {
    var end := LineEndFrom(data, pos);
    var next := AfterEol(data, end);
    LaterEols(data, pos);
    if end + 1 == |data| {
      assert EolsFrom(data, next) == [];
    } else if EndsInSingleEol(data, next) {
      assert Pop([data[end..next]] + EolsFrom(data, next)) == [data[end..next]] + Pop(EolsFrom(data, next));
    }
  }

  /**
   The output line end of a file follows from its line ends: the most frequent kind,
   Windows before Linux before Mac. So a file of one kind keeps it.
   */
  lemma {:induction false} OutputIsMostFrequent(data: string)
    ensures var last, eols := LastCursor(data, Cursor(0, false, 0, 0, 0, 0)), CountedEols(data, 0);
            var output := OutputEol(last.windows, last.linux, last.macOld);
            var windows, linux, macOld := TwoCharacter(eols), Number(eols, "\n"), Number(eols, "\r");
            (output == "\r\n" <==> windows >= linux && windows >= macOld) &&
            (output == "\n" <==> linux > windows && linux >= macOld) &&
            (output == "\r" <==> macOld > windows && macOld > linux)
  {
    EachKindIsCounted(data, Cursor(0, false, 0, 0, 0, 0));
    assert "\r\n"[0] != "\n"[0] && "\r"[0] != "\n"[0] && |"\r\n"| != |"\r"|;
  }

  lemma {:induction false} AllOfOneKind(eols: seq<string>, eol: string)
    requires (forall e :: e in eols ==> e == eol) && (eol == "\n" || eol == "\r" || |eol| == 2)
    ensures TwoCharacter(eols) == (if |eol| == 2 then |eols| else 0)
    ensures Number(eols, "\n") == (if eol == "\n" then |eols| else 0) && Number(eols, "\r") == (if eol == "\r" then |eols| else 0)
  {
    if |eols| > 0 {
      assert eols[0] in eols;
      forall e | e in eols[1..] ensures e == eol {
        assert e in eols;
      }
      AllOfOneKind(eols[1..], eol);
      assert "\n"[0] != "\r"[0];
    }
  }

  lemma {:induction false} OneKindIsKept(data: string, eol: string)
    requires eol in ["\r\n", "\n", "\r"] && |CountedEols(data, 0)| > 0 && forall e :: e in CountedEols(data, 0) ==> e == eol
    ensures var last := LastCursor(data, Cursor(0, false, 0, 0, 0, 0)); OutputEol(last.windows, last.linux, last.macOld) == eol
  {
    OutputIsMostFrequent(data);
    AllOfOneKind(CountedEols(data, 0), eol);
    assert "\n"[0] != "\r"[0];
  }

  /** A file whose only line end is its last character gets the Windows line end. */
  lemma {:induction false} SingleTrailingEol(line: string, eol: char)
    requires IsEol(eol) && forall i :: 0 <= i < |line| ==> !IsEol(line[i])
    ensures var c := AfterNext(line + [eol], Cursor(0, false, 0, 0, 0, 0));
            !c.eof && OutputEol(c.windows, c.linux, c.macOld) == "\r\n"
  {
    FirstEol(line + [eol], 0, |line|);
  }

  /** `n` look-aheads are allowed: none starts at the end of the file. */
  predicate CanPeek(data: string, c: Cursor, n: nat)
    requires Inside(data, c)
    decreases n
  {
    n == 0 || (!c.eof && CanPeek(data, AfterPeek(data, c), n - 1))
  }

  function Peeks(data: string, c: Cursor, n: nat): (r: (seq<string>, Cursor))
    requires Inside(data, c) && CanPeek(data, c, n)
    ensures Inside(data, r.1)
    decreases n
  {
    if n == 0 then ([], c)
    else
      var (lines, last) := Peeks(data, AfterPeek(data, c), n - 1);
      ([Line(data, c)] + lines, last)
  }

  /** What is seen ahead is what will be read. */
  lemma {:induction false} PeeksAreNextLines(data: string, c: Cursor, n: nat)
    requires Inside(data, c) && CanPeek(data, c, n) && !c.eof
    ensures Peeks(data, c, n).0 <= LinesFrom(data, c.pos)
    decreases n
  {
    if n > 0 {
      var c1 := AfterPeek(data, c);
      if n > 1 {
        PeeksAreNextLines(data, c1, n - 1);
        assert LinesFrom(data, c.pos)[1..] == LinesFrom(data, c1.pos);
      }
    }
  }

  /** All lines that look-aheads return until the end of the file. */
  function PeekLines(data: string, c: Cursor): seq<string>
    requires Inside(data, c)
    decreases !c.eof, |data| - c.pos
  {
    if c.eof then [] else [Line(data, c)] + PeekLines(data, AfterPeek(data, c))
  }

  /** Looking ahead sees every line but the empty one behind a single line end that ends the file. */
  lemma {:induction false} PeeksSeeEveryLine(data: string, c: Cursor)
    requires Inside(data, c) && !c.eof
    ensures var lines := LinesFrom(data, c.pos); PeekLines(data, c) == if EndsInSingleEol(data, c.pos) then Pop(lines) else lines
    decreases |data| - c.pos
  {
    var c1 := AfterPeek(data, c);
    var end := LineEndFrom(data, c.pos);
    if end < |data| {
      LaterEols(data, c.pos);
      var lines := LinesFrom(data, AfterEol(data, end));
      if end + 1 == |data| {
        assert AfterEol(data, end) == |data| && data[|data|..|data|] == "";
        assert lines == [""] && c1.eof;
        assert Pop([data[c.pos..end]] + lines) == [data[c.pos..end]];
      } else {
        PeeksSeeEveryLine(data, c1);
        assert Pop([data[c.pos..end]] + lines) == [data[c.pos..end]] + Pop(lines);
      }
    } else {
      assert PeekLines(data, c1) == [];
    }
  }

  lemma {:induction false} PeekKeepsStart(data: string, c: Cursor, n: nat)
    requires Inside(data, c) && CanPeek(data, c, n) && c.peekStart != 0
    ensures Peeks(data, c, n).1 == c.(pos := Peeks(data, c, n).1.pos, eof := Peeks(data, c, n).1.eof)
    decreases n
  {
    if n > 0 {
      PeekKeepsStart(data, AfterPeek(data, c), n - 1);
    }
  }

  /**
   The look-ahead can be undone, and `peekReset` restores the cursor, exactly when
   something has been read before: position 0 doubles as "not peeking".
   */
  lemma {:induction false} ResetRestores(data: string, c: Cursor, n: nat)
    requires Inside(data, c) && !c.eof && c.peekStart == 0 && n > 0 && CanPeek(data, c, n)
    ensures var last := Peeks(data, c, n).1;
            last.peekStart <= |data| &&
            (last.peekStart != 0 && AfterReset(data, last) == c <==> c.pos != 0)
  {
    var c1 := AfterPeek(data, c);
    if c.pos != 0 {
      PeekKeepsStart(data, c1, n - 1);
    } else if n > 1 {
      assert c1.pos > 0 && c1.peekStart == 0;
      PeekKeepsStart(data, AfterPeek(data, c1), n - 2);
    } else {
      assert Peeks(data, c1, 0).1 == c1;
    }
  }

  /** The line end chosen for the output: Windows before Linux before Mac, by count. */
  function OutputEol(windows: nat, linux: nat, macOld: nat): string
  {
    if windows >= linux then (if windows >= macOld then "\r\n" else "\r")
    else if linux >= macOld then "\n"
    else "\r"
  }

  class ASStreamIterator {
    const data: string
    var get: nat
    var eofbit: bool
    var buffer: string
    var prevBuffer: string
    var outputEOL: string
    var eolWindows: nat
    var eolLinux: nat
    var eolMacOld: nat
    var peekStart: nat
    var prevLineDeleted: bool
    var checkForEmptyLine: bool

    ghost predicate Valid()
      reads this
    {
      get <= |data| && peekStart <= |data|
    }

    ghost function View(): Cursor
      reads this
    {
      Cursor(get, eofbit, eolWindows, eolLinux, eolMacOld, peekStart)
    }

    constructor (text: string)
      ensures Valid() && data == text && View() == Cursor(0, false, 0, 0, 0, 0)
    {
      data, get, eofbit := text, 0, false;
      buffer, prevBuffer, outputEOL := "", "", "";
      eolWindows, eolLinux, eolMacOld, peekStart := 0, 0, 0, 0;
      prevLineDeleted, checkForEmptyLine := false, false;
    }

    /** `istream::get`; at the end it sets the end-of-file flag and leaves `ch` alone. */
    method Get(ch0: char) returns (ch: char)
      requires Valid()
      modifies this`get, this`eofbit
      ensures Valid()
      ensures !old(eofbit) && old(get) < |data| ==> ch == data[old(get)] && get == old(get) + 1 && !eofbit
      ensures old(eofbit) || old(get) == |data| ==> ch == ch0 && get == old(get) && eofbit
    {
      ch := ch0;
      if !eofbit && get < |data| {
        ch := data[get];
        get := get + 1;
      } else {
        eofbit := true;
      }
    }

    /** Reads up to and including the first end-of-line character. */
    method ReadRecord() returns (record: string, ch: char)
      requires Valid()
      modifies this`get, this`eofbit
      ensures Valid() && record == Line(data, old(View()))
      ensures !old(eofbit) ==>
                var end := LineEndFrom(data, old(get));
                if end == |data| then eofbit && get == end else !eofbit && get == end + 1 && ch == data[end]
      ensures old(eofbit) ==> eofbit && get == old(get)
    {
      record := "";
      ch := Get(' ');
      while !eofbit && ch != '\n' && ch != '\r'
        invariant Valid()
        invariant old(eofbit) ==> eofbit && get == old(get) && record == ""
        invariant !old(eofbit) ==> old(get) + |record| <= |data| && record == data[old(get)..old(get) + |record|]
        invariant !old(eofbit) ==> forall i :: old(get) <= i < old(get) + |record| ==> !IsEol(data[i])
        invariant !old(eofbit) && eofbit ==> get == old(get) + |record| == |data|
        invariant !old(eofbit) && !eofbit ==> get == old(get) + |record| + 1 && ch == data[get - 1]
        decreases !eofbit, |data| - get
      {
        record := record + [ch];
        ch := Get(ch);
      }
      if !old(eofbit) {
        FirstEol(data, old(get), old(get) + |record|);
      }
    }

    method NextLine(emptyLineWasDeleted: bool) returns (line: string)
      requires Valid() && peekStart == 0
      modifies this
      ensures Valid() && line == buffer == Line(data, old(View()))
      ensures View() == AfterNext(data, old(View()))
      ensures prevBuffer == if emptyLineWasDeleted then old(prevBuffer) else old(buffer)
      ensures checkForEmptyLine == (old(prevLineDeleted) || old(checkForEmptyLine))
      ensures prevLineDeleted == emptyLineWasDeleted
      ensures outputEOL == if eofbit then old(outputEOL) else OutputEol(eolWindows, eolLinux, eolMacOld)
    {
      if prevLineDeleted {
        prevLineDeleted := false;
        checkForEmptyLine := true;
      }
      if !emptyLineWasDeleted {
        prevBuffer := buffer;
      } else {
        prevLineDeleted := true;
      }
      ReadLine();
      return buffer;
    }

    method ReadLine()
      requires Valid()
      modifies this`get, this`eofbit, this`buffer, this`outputEOL, this`eolWindows, this`eolLinux, this`eolMacOld
      ensures Valid() && buffer == Line(data, old(View()))
      ensures View() == AfterNext(data, old(View()))
      ensures outputEOL == if eofbit then old(outputEOL) else OutputEol(eolWindows, eolLinux, eolMacOld)
    {
      var ch: char;
      buffer, ch := ReadRecord();
      if !eofbit {
        CountEol(ch);
        outputEOL := ChooseOutputEOL();
      }
    }

    /** `peek` sets the end-of-file flag at the end of the text, and `clear` takes it back. */
    method CountEol(ch: char)
      requires Valid() && get > 0 && ch == data[get - 1] && IsEol(ch)
      modifies this`get, this`eolWindows, this`eolLinux, this`eolMacOld
      ensures Valid()
      ensures View() == (if old(get) == |data| then old(View()) else Count(old(View()), EolAt(data, old(get) - 1)))
                        .(pos := AfterEol(data, old(get) - 1))
    {
      if get < |data| {
        var peekCh := data[get];
        if ch == '\r' {
          if peekCh == '\n' {
            get := get + 1;
            eolWindows := eolWindows + 1;
          } else {
            eolMacOld := eolMacOld + 1;
          }
        } else if peekCh == '\r' {
          get := get + 1;
          eolWindows := eolWindows + 1;
        } else {
          eolLinux := eolLinux + 1;
        }
      }
    }

    method ChooseOutputEOL() returns (eol: string)
      ensures eol == OutputEol(eolWindows, eolLinux, eolMacOld)
    {
      if eolWindows >= eolLinux {
        if eolWindows >= eolMacOld {
          eol := "\r\n";
        } else {
          eol := "\r";
        }
      } else if eolLinux >= eolMacOld {
        eol := "\n";
      } else {
        eol := "\r";
      }
    }

    method PeekNextLine() returns (line: string)
      requires Valid() && !eofbit
      modifies this`get, this`eofbit, this`peekStart
      ensures Valid() && line == Line(data, old(View()))
      ensures View() == AfterPeek(data, old(View()))
    {
      if peekStart == 0 {
        peekStart := get;
      }
      var ch: char;
      line, ch := ReadRecord();
      if eofbit {
        return;
      }
      if get == |data| {
        eofbit := true;
      } else if (data[get] == '\n' || data[get] == '\r') && data[get] != ch {
        get := get + 1;
      }
    }

    method PeekReset()
      requires Valid() && peekStart != 0
      modifies this`get, this`eofbit, this`peekStart
      ensures Valid() && View() == AfterReset(data, old(View()))
    {
      eofbit := false;
      get := peekStart;
      peekStart := 0;
    }
  }
}
