/**
 `convertLineEnds`: rewriting a text with one kind of line end.
 */
module LineEnds {
  datatype LineEnd = Windows | Linux | MacOld

  function Ending(e: LineEnd): string
  {
    match e case Windows => "\r\n" case Linux => "\n" case MacOld => "\r"
  }

  // ---------------------------------------------------------------------
  // A text as lines
  // ---------------------------------------------------------------------

  predicate IsPlain(line: string)
  {
    '\r' !in line && '\n' !in line
  }

  /** The length of the line end at the start of the text, or 0. CR LF is one line end. */
  function EndLength(text: string): (n: nat)
    ensures n <= |text| && n <= 2
  {
    if |text| == 0 || (text[0] != '\r' && text[0] != '\n') then 0
    else if text[0] == '\r' && |text| > 1 && text[1] == '\n' then 2
    else 1
  }

  /** The lines of a text: always one more than its line ends. */
  function Lines(text: string): (r: seq<string>)
    ensures |r| > 0
    decreases |text|
  {
    if |text| == 0 then [""]
    else if EndLength(text) > 0 then [""] + Lines(text[EndLength(text)..])
    else
      var rest := Lines(text[1..]);
      [[text[0]] + rest[0]] + rest[1..]
  }

  lemma {:induction false} LinesArePlain(text: string)
    ensures forall i :: 0 <= i < |Lines(text)| ==> IsPlain(Lines(text)[i])
    decreases |text|
  {
    if |text| > 0 {
      if EndLength(text) > 0 {
        LinesArePlain(text[EndLength(text)..]);
      } else {
        var rest := Lines(text[1..]);
        LinesArePlain(text[1..]);
      }
    }
  }

  /** Lines joined by one line end. */
  function Joined(lines: seq<string>, e: LineEnd): string
    requires |lines| > 0
  {
    if |lines| == 1 then lines[0] else lines[0] + (Ending(e) + Joined(lines[1..], e))
  }

  /** What the loop writes for the rest of the text. */
  function Converted(text: string, e: LineEnd): string
    decreases |text|
  {
    if |text| == 0 then ""
    else if EndLength(text) > 0 then Ending(e) + Converted(text[EndLength(text)..], e)
    else [text[0]] + Converted(text[1..], e)
  }

  lemma {:induction false} JoinedAfterEnd(rest: seq<string>, e: LineEnd)
    requires |rest| > 0
    ensures Joined([""] + rest, e) == Ending(e) + Joined(rest, e)
  {
    assert ([""] + rest)[1..] == rest;
  }

  lemma {:induction false} JoinedLonger(c: char, rest: seq<string>, e: LineEnd)
    requires |rest| > 0
    ensures Joined([[c] + rest[0]] + rest[1..], e) == [c] + Joined(rest, e)
  {
    var lines := [[c] + rest[0]] + rest[1..];
    assert lines[1..] == rest[1..];
    if |rest| > 1 {
      var tail := Ending(e) + Joined(rest[1..], e);
      assert ([c] + rest[0]) + tail == [c] + (rest[0] + tail);
    }
  }

  /** The conversion keeps every line and leaves only the target line end. */
  lemma {:induction false} ConvertedIsJoined(text: string, e: LineEnd)
    ensures Converted(text, e) == Joined(Lines(text), e)
    decreases |text|
  {
    if |text| > 0 {
      if EndLength(text) > 0 {
        ConvertedIsJoined(text[EndLength(text)..], e);
        JoinedAfterEnd(Lines(text[EndLength(text)..]), e);
      } else {
        ConvertedIsJoined(text[1..], e);
        JoinedLonger(text[0], Lines(text[1..]), e);
      }
    }
  }

  lemma {:induction false} LinesOfPlain(line: string, rest: string)
    requires IsPlain(line)
    ensures Lines(line + rest) == [line + Lines(rest)[0]] + Lines(rest)[1..]
    decreases |line|
  {
    if |line| == 0 {
      assert line + rest == rest;
      assert [Lines(rest)[0]] + Lines(rest)[1..] == Lines(rest);
      assert line + Lines(rest)[0] == Lines(rest)[0];
    } else {
      var whole := line + rest;
      assert whole[0] == line[0] && whole[1..] == line[1..] + rest;
      assert IsPlain(line[1..]);
      LinesOfPlain(line[1..], rest);
      assert [line[0]] + (line[1..] + Lines(rest)[0]) == line + Lines(rest)[0];
    }
  }

  /** Reading back a written line end: the text after it must not turn a CR into a CR LF. */
  lemma {:induction false} LinesOfEnding(e: LineEnd, rest: string)
    requires |rest| > 0 ==> rest[0] != '\n' || e != MacOld
    ensures Lines(Ending(e) + rest) == [""] + Lines(rest)
  {
    var whole := Ending(e) + rest;
    assert whole[|Ending(e)|..] == rest;
    assert EndLength(whole) == |Ending(e)|;
  }

  lemma {:induction false} LinesOfJoined(lines: seq<string>, e: LineEnd)
    requires |lines| > 0 && forall i :: 0 <= i < |lines| ==> IsPlain(lines[i])
    ensures Lines(Joined(lines, e)) == lines
    decreases |lines|
  {
    if |lines| == 1 {
      LinesOfOne(lines[0]);
    } else {
      var rest := Joined(lines[1..], e);
      LinesOfJoined(lines[1..], e);
      JoinedStart(lines[1..], e);
      LinesOfLineAndEnding(lines[0], e, rest);
    }
  }

  lemma {:induction false} LinesOfOne(line: string)
    requires IsPlain(line)
    ensures Lines(line) == [line]
  {
    LinesOfPlain(line, "");
    assert line + "" == line;
  }

  lemma {:induction false} LinesOfLineAndEnding(line: string, e: LineEnd, rest: string)
    requires IsPlain(line) && (|rest| > 0 ==> rest[0] != '\n' || e != MacOld)
    ensures Lines(line + (Ending(e) + rest)) == [line] + Lines(rest)
  {
    LinesOfEnding(e, rest);
    LinesOfPlain(line, Ending(e) + rest);
    assert line + "" == line;
    assert ([""] + Lines(rest))[1..] == Lines(rest);
  }

  lemma {:induction false} JoinedStart(lines: seq<string>, e: LineEnd)
    requires |lines| > 0 && forall i :: 0 <= i < |lines| ==> IsPlain(lines[i])
    ensures var text := Joined(lines, e); |text| > 0 && text[0] == '\n' ==> e == Linux
  {
    if |lines| > 1 && |lines[0]| == 0 {
      assert Joined(lines, e)[0] == Ending(e)[0];
    } else if |lines[0]| > 0 {
      assert Joined(lines, e)[0] == lines[0][0];
      assert lines[0][0] in lines[0];
    }
  }

  // ---------------------------------------------------------------------
  // The line ends themselves
  // ---------------------------------------------------------------------

  /** The line ends of a text, in order. */
  function Ends(text: string): seq<string>
    decreases |text|
  {
    if |text| == 0 then []
    else if EndLength(text) > 0 then [text[..EndLength(text)]] + Ends(text[EndLength(text)..])
    else Ends(text[1..])
  }

  function Interleaved(lines: seq<string>, ends: seq<string>): string
    requires |lines| == |ends| + 1
  {
    if |ends| == 0 then lines[0] else lines[0] + (ends[0] + Interleaved(lines[1..], ends[1..]))
  }

  /**
   A text is its lines and its line ends; each end is CR LF, LF or CR, and a CR that
   is one is not followed by an LF.
   */
  lemma {:induction false} LinesAndEnds(text: string)
    ensures var lines, ends := Lines(text), Ends(text);
            |lines| == |ends| + 1 && Interleaved(lines, ends) == text &&
            (forall i :: 0 <= i < |ends| ==> ends[i] in ["\r\n", "\n", "\r"]) &&
            (forall i :: 0 <= i < |ends| - 1 && ends[i] == "\r" && lines[i + 1] == "" ==> ends[i + 1] != "\n")
    ensures |text| > 0 && text[0] == '\n' ==> |Ends(text)| > 0 && Lines(text)[0] == "" && Ends(text)[0] == "\n"
    ensures |Ends(text)| > 0 && Lines(text)[0] == "" ==> Ends(text)[0][0] == text[0]
    decreases |text|
  {
    if |text| > 0 {
      var n := EndLength(text);
      if n > 0 {
        LinesAndEnds(text[n..]);
        EndFirst(text, n, Lines(text[n..]), Ends(text[n..]));
      } else {
        LinesAndEnds(text[1..]);
        LongerFirst(text[0], Lines(text[1..]), Ends(text[1..]));
      }
    }
  }

  lemma {:induction false} EndFirst(text: string, n: nat, lines: seq<string>, ends: seq<string>)
    requires n == EndLength(text) > 0 && |lines| == |ends| + 1 && Interleaved(lines, ends) == text[n..]
    ensures Interleaved([""] + lines, [text[..n]] + ends) == text
    ensures text[..n] == (if n == 2 then "\r\n" else [text[0]]) && text[..n] in ["\r\n", "\n", "\r"]
  {
    assert text[..n] == if n == 2 then ['\r', '\n'] else [text[0]];
    assert ([""] + lines)[1..] == lines && ([text[..n]] + ends)[1..] == ends;
    assert "" + (text[..n] + text[n..]) == text;
  }

  lemma {:induction false} LongerFirst(c: char, lines: seq<string>, ends: seq<string>)
    requires |lines| == |ends| + 1
    ensures Interleaved([[c] + lines[0]] + lines[1..], ends) == [c] + Interleaved(lines, ends)
  {
    var longer := [[c] + lines[0]] + lines[1..];
    assert longer[1..] == lines[1..];
    if |ends| > 0 {
      var tail := ends[0] + Interleaved(lines[1..], ends[1..]);
      assert ([c] + lines[0]) + tail == [c] + (lines[0] + tail);
    }
  }

  /** No line-end character but those of the target, each in its place. */
  predicate OnlyEnds(text: string, e: LineEnd)
  {
    match e
    case Windows =>
      (forall i :: 0 <= i < |text| && text[i] == '\r' ==> i + 1 < |text| && text[i + 1] == '\n') &&
      (forall i :: 0 <= i < |text| && text[i] == '\n' ==> i > 0 && text[i - 1] == '\r')
    case Linux => '\r' !in text
    case MacOld => '\n' !in text
  }

  lemma {:induction false} OnlyEndsSum(a: string, b: string, e: LineEnd)
    requires OnlyEnds(a, e) && OnlyEnds(b, e)
    ensures OnlyEnds(a + b, e)
  {
    var s := a + b;
    if e == Windows {
      forall i | 0 <= i < |s| && s[i] == '\r' ensures i + 1 < |s| && s[i + 1] == '\n' {
        assert i < |a| ==> a[i] == '\r';
      }
      forall i | 0 <= i < |s| && s[i] == '\n' ensures i > 0 && s[i - 1] == '\r' {
        assert i >= |a| ==> b[i - |a|] == '\n';
      }
    }
  }

  /** A converted text has line ends of the target kind only: the characters written are the right ones. */
  lemma {:induction false} OnlyTheTargetIsLeft(text: string, e: LineEnd)
    ensures OnlyEnds(Converted(text, e), e)
    decreases |text|
  {
    if |text| > 0 {
      var n := EndLength(text);
      var first := if n > 0 then Ending(e) else [text[0]];
      OnlyTheTargetIsLeft(if n > 0 then text[n..] else text[1..], e);
      assert OnlyEnds(first, e);
      OnlyEndsSum(first, Converted(if n > 0 then text[n..] else text[1..], e), e);
    }
  }

  /** The lines survive every conversion. */
  lemma {:induction false} KeepsLines(text: string, e: LineEnd)
    ensures Lines(Converted(text, e)) == Lines(text)
  {
    ConvertedIsJoined(text, e);
    LinesArePlain(text);
    LinesOfJoined(Lines(text), e);
  }

  /** Only the last conversion matters; with equal targets, converting twice changes nothing. */
  lemma {:induction false} LastConversionWins(text: string, e1: LineEnd, e2: LineEnd)
    ensures Converted(Converted(text, e1), e2) == Converted(text, e2)
  {
    KeepsLines(text, e1);
    ConvertedIsJoined(Converted(text, e1), e2);
    ConvertedIsJoined(text, e2);
  }

  /** Two texts convert to the same text exactly when they have the same lines. */
  lemma {:induction false} SameLines(a: string, b: string, e: LineEnd)
    ensures Converted(a, e) == Converted(b, e) <==> Lines(a) == Lines(b)
  {
    KeepsLines(a, e);
    KeepsLines(b, e);
    ConvertedIsJoined(a, e);
    ConvertedIsJoined(b, e);
  }

  /** The character at a position of a C++ string, which ends in a NUL. */
  function CharAt(s: string, i: nat): char
    requires i <= |s|
  {
    if i < |s| then s[i] else '\0'
  }

  /** What one turn of the loop writes, and how far it moves. */
  function Written(text: string, e: LineEnd): string
    requires |text| > 0
  {
    if EndLength(text) > 0 then Ending(e) else [text[0]]
  }

  function Moved(text: string): (n: nat)
    requires |text| > 0
    ensures 0 < n <= |text|
  {
    if EndLength(text) > 0 then EndLength(text) else 1
  }

  lemma {:induction false} ConvertedStep(text: string, pos: nat, e: LineEnd, before: string)
    requires pos < |text|
    ensures before + Converted(text[pos..], e)
            == before + Written(text[pos..], e) + Converted(text[pos + Moved(text[pos..])..], e)
  {
    assert text[pos..][Moved(text[pos..])..] == text[pos + Moved(text[pos..])..];
  }

  method ConvertLineEnds(inStr: string, lineEnd: LineEnd) returns (outStr: string)
    ensures outStr == Joined(Lines(inStr), lineEnd)
  {
    outStr := "";
    var pos := 0;
    while pos < |inStr|
      invariant 0 <= pos <= |inStr|
      invariant outStr + Converted(inStr[pos..], lineEnd) == Converted(inStr, lineEnd)
    {
      ConvertedStep(inStr, pos, lineEnd, outStr);
      outStr, pos := ConvertNext(inStr, pos, lineEnd, outStr);
    }
    assert outStr + "" == outStr;
    ConvertedIsJoined(inStr, lineEnd);
  }

  /** One turn of the loop. */
  method ConvertNext(inStr: string, pos: nat, lineEnd: LineEnd, outStr: string) returns (outStr': string, pos': nat)
    requires pos < |inStr|
    ensures outStr' == outStr + Written(inStr[pos..], lineEnd) && pos' == pos + Moved(inStr[pos..])
  {
    outStr', pos' := outStr, pos;
    if inStr[pos] == '\r' {
      if CharAt(inStr, pos + 1) == '\n' {
        if lineEnd == MacOld {
          outStr' := outStr' + [inStr[pos]];
        } else if lineEnd == Linux {
          outStr' := outStr' + [inStr[pos + 1]];
        } else {
          outStr' := outStr' + [inStr[pos]];
          outStr' := outStr' + [inStr[pos + 1]];
        }
        pos' := pos' + 1;
      } else if lineEnd == Windows {
        outStr' := outStr' + [inStr[pos]];
        outStr' := outStr' + ['\n'];
      } else if lineEnd == Linux {
        outStr' := outStr' + ['\n'];
      } else {
        outStr' := outStr' + [inStr[pos]];
      }
    } else if inStr[pos] == '\n' {
      if lineEnd == Windows {
        outStr' := outStr' + ['\r'];
        outStr' := outStr' + [inStr[pos]];
      } else if lineEnd == MacOld {
        outStr' := outStr' + ['\r'];
      } else {
        outStr' := outStr' + [inStr[pos]];
      }
    } else {
      outStr' := outStr' + [inStr[pos]];
    }
    pos' := pos' + 1;
  }
}
