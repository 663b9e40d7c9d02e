/**
 The keyword and operator searches of ASBase over sorted word lists.
 */
module KeywordSearch {
  import opened Stacks
  import opened Characters

  datatype FileType = CType | JavaType | SharpType

  predicate IsAlnum(ch: char)
  {
    '0' <= ch <= '9' || 'A' <= ch <= 'Z' || 'a' <= ch <= 'z'
  }

  predicate IsLegalNameChar(ch: char, ft: FileType)
  {
    !IsWhiteSpace(ch) && ch as int <= 127 &&
    (IsAlnum(ch) || ch == '.' || ch == '_' || (ft == JavaType && ch == '$') || (ft == SharpType && ch == '@'))
  }

  /** Can a name start at `i`? */
  predicate IsCharPotentialHeader(line: string, i: nat, ft: FileType)
    requires i < |line|
  {
    var prevCh := if i > 0 then line[i - 1] else ' ';
    !IsLegalNameChar(prevCh, ft) && IsLegalNameChar(line[i], ft)
  }

  predicate IsPunct(ch: char)
  {
    var c := ch as int;
    33 <= c <= 47 || 58 <= c <= 64 || 91 <= c <= 96 || 123 <= c <= 126
  }

  predicate IsCharPotentialOperator(ch: char)
  {
    ch as int <= 127 && IsPunct(ch) &&
    ch !in ['{', '}', '(', ')', '[', ']', ';', ',', '#', '\\', '\'', '"']
  }

  /** The first character from `i` on that is not white space, or a space. */
  function FirstText(line: string, i: nat): char
    decreases |line| - i
  {
    if i >= |line| then ' ' else if IsWhiteSpace(line[i]) then FirstText(line, i + 1) else line[i]
  }

  function PeekNextChar(line: string, i: int): char
    requires i >= -1
  {
    FirstText(line, i + 1)
  }

  /** The characters of names: ASCII letters and digits, dot and underscore, and one more in Java and in C#. */
  lemma {:induction false} NameCharacters(ch: char, ft: FileType)
    ensures IsLegalNameChar(ch, ft) <==>
            'A' <= ch <= 'Z' || 'a' <= ch <= 'z' || '0' <= ch <= '9' || ch in ['.', '_'] ||
            (ch == '$' && ft == JavaType) || (ch == '@' && ft == SharpType)
  {
  }

  lemma {:induction false} OperatorCharacters(ch: char)
    ensures IsCharPotentialOperator(ch) <==>
            ch in ['!', '$', '%', '&', '*', '+', '-', '.', '/', ':', '<', '=', '>', '?', '@', '^', '_', '`', '|', '~']
  {
  }

  /** The next character is the first one past the blanks; a space if there is none. */
  lemma {:induction false} NextIsFirstPastBlanks(line: string, i: int)
    requires -1 <= i < |line|
    ensures var next := PeekNextChar(line, i);
            (exists j :: i < j < |line| && line[j] == next && !IsWhiteSpace(next) && forall k :: i < k < j ==> IsWhiteSpace(line[k])) ||
            (next == ' ' && forall k :: i < k < |line| ==> IsWhiteSpace(line[k]))
    decreases |line| - i
  {
    if i + 1 < |line| && IsWhiteSpace(line[i + 1]) {
      NextIsFirstPastBlanks(line, i + 1);
    }
  }

  // ---------------------------------------------------------------------
  // Words
  // ---------------------------------------------------------------------

  function WordEnd(line: string, i: nat, ft: FileType): (end: nat)
    requires i <= |line|
    ensures i <= end <= |line|
    ensures forall j :: i <= j < end ==> IsLegalNameChar(line[j], ft)
    ensures end < |line| ==> !IsLegalNameChar(line[end], ft)
    decreases |line| - i
  {
    if i < |line| && IsLegalNameChar(line[i], ft) then WordEnd(line, i + 1, ft) else i
  }

  /** The longest name that starts at `i`. */
  function CurrentWord(line: string, i: nat, ft: FileType): string
    requires i <= |line|
  {
    line[i..WordEnd(line, i, ft)]
  }

  /** A header can start where a name starts that goes on from no name before it. */
  lemma {:induction false} HeadersStartNames(line: string, i: nat, ft: FileType)
    requires i < |line|
    ensures IsCharPotentialHeader(line, i, ft) <==>
            CurrentWord(line, i, ft) != "" && (i == 0 || CurrentWord(line, i - 1, ft) == "")
  {
  }

  method GetCurrentWord(line: string, index: nat, ft: FileType) returns (word: string)
    requires index < |line| && IsCharPotentialHeader(line, index, ft)
    ensures word == CurrentWord(line, index, ft)
  {
    var i := index;
    while i < |line| && IsLegalNameChar(line[i], ft)
      invariant index <= i <= |line| && WordEnd(line, i, ft) == WordEnd(line, index, ft)
    {
      i := i + 1;
    }
    word := line[index..i];
  }

  /** `std::string::compare`: the sign of the lexicographic comparison by character code. */
  function Compare(a: string, b: string): int
  {
    if |a| == 0 then (if |b| == 0 then 0 else -1)
    else if |b| == 0 then 1
    else if a[0] < b[0] then -1
    else if a[0] > b[0] then 1
    else Compare(a[1..], b[1..])
  }

  /** `sortOnName` puts no word after a larger one. */
  predicate SortedOnName(words: seq<string>)
  {
    forall p, q :: 0 <= p < q < |words| ==> Compare(words[q], words[p]) >= 0
  }

  /** `sortOnLength` puts the longest words first. */
  predicate SortedOnLength(words: seq<string>)
  {
    forall p, q :: 0 <= p < q < |words| ==> |words[p]| >= |words[q]|
  }

  predicate IsName(word: string, ft: FileType)
  {
    |word| > 0 && forall k :: 0 <= k < |word| ==> IsLegalNameChar(word[k], ft)
  }

  lemma {:induction false} CompareEqual(a: string, b: string)
    ensures Compare(a, b) == 0 <==> a == b
    decreases |a|
  {
    if |a| > 0 && |b| > 0 {
      CompareEqual(a[1..], b[1..]);
      assert a == [a[0]] + a[1..] && b == [b[0]] + b[1..];
    }
  }

  /** A text smaller than `h` makes every word that begins it, or that it begins, smaller than `h`. */
  lemma {:induction false} SmallerStart(word: string, text: string, h: string)
    requires Compare(text, h) < 0 && |text| == |h|
    requires word <= text || text <= word
    ensures Compare(word, h) < 0
    decreases |h|
  {
    if |word| > 0 && word[0] == h[0] {
      SmallerStart(word[1..], text[1..], h[1..]);
    }
  }

  /** How a header of the list compares with the text at `i` decides whether it is the word there. */
  lemma {:induction false} WordAgainstHeader(line: string, i: nat, header: string, ft: FileType)
    requires i < |line| && IsName(header, ft)
    ensures i + |header| > |line| ==> CurrentWord(line, i, ft) != header
    ensures i + |header| <= |line| ==>
              var c := Compare(line[i..i + |header|], header);
              (c < 0 ==> Compare(CurrentWord(line, i, ft), header) < 0) &&
              (CurrentWord(line, i, ft) == header <==>
               c == 0 && (i + |header| == |line| || !IsLegalNameChar(line[i + |header|], ft)))
  {
    var end := WordEnd(line, i, ft);
    var n := i + |header|;
    if n <= |line| {
      var word, text := line[i..end], line[i..n];
      CompareEqual(text, header);
      assert if end <= n then word == text[..|word|] else text == word[..|text|];
      if Compare(text, header) < 0 {
        SmallerStart(word, text, header);
      }
      if text == header {
        assert forall j :: i <= j < n ==> line[j] == header[j - i];
      }
    }
  }

  /** With the list sorted on name, leaving the loop early loses no header. */
  method FindHeader(line: string, i: nat, possibleHeaders: seq<string>, ft: FileType) returns (r: Option<string>)
    requires i < |line| && IsCharPotentialHeader(line, i, ft)
    requires SortedOnName(possibleHeaders)
    requires forall h :: h in possibleHeaders ==> IsName(h, ft)
    ensures var word := CurrentWord(line, i, ft);
            var peekChar := PeekNextChar(line, i + |word| - 1);
            (r.Some? ==> r.value == word) &&
            (r.Some? <==> word in possibleHeaders &&
                          (i + |word| == |line| ||
                           (peekChar !in [',', ')'] && !(word in ["get", "set", "default"] && peekChar in [';', '(', '=']))))
  {
    ghost var word := CurrentWord(line, i, ft);
    for p := 0 to |possibleHeaders|
      invariant word !in possibleHeaders[..p]
    {
      var header := possibleHeaders[p];
      var wordEnd := i + |header|;
      assert possibleHeaders[..p + 1] == possibleHeaders[..p] + [header];
      WordAgainstHeader(line, i, header, ft);
      if wordEnd > |line| {
        continue;
      }
      var result := Compare(line[i..wordEnd], header);
      if result > 0 {
        continue;
      }
      if result < 0 {
        assert forall q :: p <= q < |possibleHeaders| ==> possibleHeaders[q] != word by {
          assert Compare(word, header) < 0;
          CompareEqual(word, header);
        }
        assert word !in possibleHeaders;
        return None;
      }
      if wordEnd == |line| {
        return Some(header);
      }
      if IsLegalNameChar(line[wordEnd], ft) {
        continue;
      }
      var peekChar := PeekNextChar(line, wordEnd - 1);
      if peekChar == ',' || peekChar == ')' {
        return None;
      } else if (header == "get" || header == "set" || header == "default")
                && (peekChar == ';' || peekChar == '(' || peekChar == '=') {
        return None;
      }
      return Some(header);
    }
    assert possibleHeaders[..|possibleHeaders|] == possibleHeaders;
    r := None;
  }

  method FindKeyword(line: string, i: nat, keyword: string, ft: FileType) returns (found: bool)
    requires i < |line| && IsCharPotentialHeader(line, i, ft) && IsName(keyword, ft)
    ensures found <==> CurrentWord(line, i, ft) == keyword &&
                       (i + |keyword| == |line| || PeekNextChar(line, i + |keyword| - 1) !in [',', ')'])
  {
    WordAgainstHeader(line, i, keyword, ft);
    var wordEnd := i + |keyword|;
    if wordEnd > |line| {
      return false;
    }
    CompareEqual(line[i..wordEnd], keyword);
    if Compare(line[i..wordEnd], keyword) != 0 {
      return false;
    }
    if wordEnd == |line| {
      return true;
    }
    if IsLegalNameChar(line[wordEnd], ft) {
      return false;
    }
    var peekChar := PeekNextChar(line, wordEnd - 1);
    found := peekChar != ',' && peekChar != ')';
  }

  predicate StartsAt(line: string, i: nat, op: string)
    requires i <= |line|
  {
    op <= line[i..]
  }

  /** With the list sorted on length, the first hit is the longest operator that starts at `i`. */
  method FindOperator(line: string, i: nat, possibleOperators: seq<string>) returns (r: Option<string>)
    requires i < |line| && IsCharPotentialOperator(line[i])
    requires SortedOnLength(possibleOperators)
    ensures r.None? <==> forall op :: op in possibleOperators ==> !StartsAt(line, i, op)
    ensures r.Some? ==> r.value in possibleOperators && StartsAt(line, i, r.value)
    ensures r.Some? ==> forall op :: op in possibleOperators && StartsAt(line, i, op) ==> op <= r.value
  {
    for p := 0 to |possibleOperators|
      invariant forall q :: 0 <= q < p ==> !StartsAt(line, i, possibleOperators[q])
    {
      var op := possibleOperators[p];
      var wordEnd := i + |op|;
      if wordEnd > |line| {
        continue;
      }
      CompareEqual(line[i..wordEnd], op);
      assert line[i..wordEnd] == line[i..][..|op|];
      if Compare(line[i..wordEnd], op) == 0 {
        assert op in possibleOperators;
        return Some(op);
      }
    }
    r := None;
  }
}
