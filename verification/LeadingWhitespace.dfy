/**
 Leading white space: `preLineWS` of ASBeautifier turns an indent into tabs and
 spaces, and ASEnhancer adds or takes away whole indents from a finished line.
 */
module LeadingWhitespace {
  import opened Stacks
  import opened Characters

  /** `tabs`: the indent string is one tab, otherwise `indentLength` spaces. */
  datatype Options = Options(tabs: bool, forceTab: bool, indentLength: int, tabLength: int, emptyLineFill: bool)

  type Settings = o: Options | o.indentLength > 0 && o.tabLength > 0 witness Options(false, false, 4, 4, false)

  // ---------------------------------------------------------------------
  // Products and division, by repeated addition and subtraction
  // ---------------------------------------------------------------------

  function Times(n: nat, d: int): (r: nat)
    requires d >= 0
  {
    if n == 0 then 0 else Times(n - 1, d) + d
  }

  function Quot(n: nat, d: int): (r: nat)
    requires d > 0
  {
    if n < d then 0 else 1 + Quot(n - d, d)
  }

  function Rem(n: nat, d: int): (r: nat)
    requires d > 0
    ensures r < d && r <= n
  {
    if n < d then n else Rem(n - d, d)
  }

  lemma {:induction false} TimesIs(n: nat, d: int)
    requires d >= 0
    ensures Times(n, d) == n * d
  {
    if n > 0 {
      TimesIs(n - 1, d);
      assert n * d == (n - 1) * d + d;
    }
  }

  lemma {:induction false} QuotRem(n: nat, d: int)
    requires d > 0
    ensures Times(Quot(n, d), d) + Rem(n, d) == n
    decreases n
  {
    if n >= d {
      QuotRem(n - d, d);
    }
  }

  lemma {:induction false} DivisionIs(n: nat, d: int)
    requires d > 0
    ensures n / d == Quot(n, d) && n % d == Rem(n, d)
  {
    QuotRem(n, d);
    TimesIs(Quot(n, d), d);
    Unique(n / d, n % d, Quot(n, d), Rem(n, d), d);
  }

  lemma {:induction false} Unique(q: int, r: int, q': int, r': int, d: int)
    requires 0 <= r < d && 0 <= r' < d && q * d + r == q' * d + r'
    ensures q == q' && r == r'
  {
    assert (q - q') * d == r' - r;
    if q > q' {
      AtLeast(q - q', d);
    } else if q' > q {
      assert (q' - q) * d == r - r';
      AtLeast(q' - q, d);
    }
  }

  lemma {:induction false} AtLeast(x: int, d: int)
    requires x >= 1 && d > 0
    ensures x * d >= d
  {
    assert x * d == (x - 1) * d + d;
  }

  lemma {:induction false} TimesGrows(n: nat, x: nat, y: nat)
    requires x < y
    ensures if n == 0 then Times(n, x) == Times(n, y) else Times(n, x) < Times(n, y)
  {
    if n > 0 {
      TimesGrows(n - 1, x, y);
    }
  }

  lemma {:induction false} TimesSum(m: nat, n: nat, d: nat)
    ensures Times(m + n, d) == Times(m, d) + Times(n, d)
    decreases n
  {
    if n > 0 {
      TimesSum(m, n - 1, d);
    }
  }

  // ---------------------------------------------------------------------
  // Leading white space
  // ---------------------------------------------------------------------

  /** `text` behind `n` copies of `c`. */
  function Pad(c: char, n: nat, text: string): (r: string)
    ensures |r| == n + |text|
  {
    if n == 0 then text else [c] + Pad(c, n - 1, text)
  }

  /** The place of the first character that is neither space nor tab, or the length of a blank line. */
  function Lead(line: string): (r: nat)
    ensures r <= |line|
  {
    if |line| == 0 || !IsWhiteSpace(line[0]) then 0 else 1 + Lead(line[1..])
  }

  predicate Blank(line: string)
  {
    Lead(line) == |line|
  }

  /** What the line shows past its leading white space. */
  function Text(line: string): string
  {
    line[Lead(line)..]
  }

  /** The visual column after the leading white space, with a tab stop every `tabLength` columns. */
  function Width(line: string, column: nat, tabLength: int): nat
    requires tabLength > 0
    decreases |line|
  {
    if |line| == 0 || !IsWhiteSpace(line[0]) then column
    else Width(line[1..], if line[0] == '\t' then column + tabLength - Rem(column, tabLength) else column + 1, tabLength)
  }

  /** The same white space as the enhancer counts it, every tab for `tabLength`. */
  function Units(line: string, tabLength: int): nat
    requires tabLength > 0
    decreases |line|
  {
    if |line| == 0 || !IsWhiteSpace(line[0]) then 0
    else (if line[0] == '\t' then tabLength else 1) + Units(line[1..], tabLength)
  }

  predicate Starts(text: string)
  {
    |text| > 0 ==> !IsWhiteSpace(text[0])
  }

  lemma {:induction false} TextStarts(line: string)
    ensures Starts(Text(line)) && (Blank(line) <==> Text(line) == "")
  {
    if |line| > 0 && IsWhiteSpace(line[0]) {
      TextStarts(line[1..]);
      assert Text(line) == Text(line[1..]);
    }
  }

  // ---------------------------------------------------------------------
  // Padding
  // ---------------------------------------------------------------------

  lemma {:induction false} PadSum(c: char, m: nat, n: nat, text: string)
    ensures Pad(c, m + n, text) == Pad(c, m, Pad(c, n, text))
    decreases m
  {
    if m > 0 {
      PadSum(c, m - 1, n, text);
    }
  }

  lemma {:induction false} PadDrop(c: char, n: nat, k: nat, text: string)
    requires k <= n
    ensures Pad(c, n, text)[k..] == Pad(c, n - k, text)
    decreases k
  {
    if k > 0 {
      PadDrop(c, n - 1, k - 1, text);
      assert Pad(c, n, text)[1..] == Pad(c, n - 1, text);
      assert Pad(c, n, text)[k..] == Pad(c, n, text)[1..][k - 1..];
    }
  }

  lemma {:induction false} PadConcat(c: char, n: nat, a: string, b: string)
    ensures Pad(c, n, a) + b == Pad(c, n, a + b)
  {
    if n > 0 {
      PadConcat(c, n - 1, a, b);
      assert Pad(c, n, a) + b == [c] + (Pad(c, n - 1, a) + b);
    }
  }

  lemma {:induction false} PadFront(c: char, n: nat, text: string)
    ensures Pad(c, n, "") + text == Pad(c, n, text)
  {
    PadConcat(c, n, "", text);
    assert "" + text == text;
  }

  lemma {:induction false} PadLead(c: char, n: nat, text: string)
    requires IsWhiteSpace(c)
    ensures Lead(Pad(c, n, text)) == n + Lead(text) && Text(Pad(c, n, text)) == Text(text)
  {
    if n > 0 {
      PadLead(c, n - 1, text);
      var line := Pad(c, n, text);
      assert line[1..] == Pad(c, n - 1, text);
      assert line[Lead(line)..] == line[1..][Lead(line) - 1..];
    }
  }

  lemma {:induction false} StartsAtZero(text: string, column: nat, tabLength: int)
    requires Starts(text) && tabLength > 0
    ensures Lead(text) == 0 && Text(text) == text && Width(text, column, tabLength) == column && Units(text, tabLength) == 0
  {
  }

  lemma {:induction false} SpacesMeasure(n: nat, text: string, column: nat, tabLength: int)
    requires tabLength > 0
    ensures Width(Pad(' ', n, text), column, tabLength) == Width(text, column + n, tabLength)
    ensures Units(Pad(' ', n, text), tabLength) == n + Units(text, tabLength)
    decreases n
  {
    if n > 0 {
      assert Pad(' ', n, text)[1..] == Pad(' ', n - 1, text);
      SpacesMeasure(n - 1, text, column + 1, tabLength);
    }
  }

  lemma {:induction false} TabsMeasure(n: nat, text: string, column: nat, tabLength: int)
    requires tabLength > 0 && Rem(column, tabLength) == 0
    ensures Width(Pad('\t', n, text), column, tabLength) == Width(text, column + Times(n, tabLength), tabLength)
    decreases n
  {
    if n > 0 {
      assert Pad('\t', n, text)[1..] == Pad('\t', n - 1, text);
      assert Rem(column + tabLength, tabLength) == 0;
      TabsMeasure(n - 1, text, column + tabLength, tabLength);
    }
  }

  // ---------------------------------------------------------------------
  // The normal form: tabs first, then spaces
  // ---------------------------------------------------------------------

  /** Tabs as far as they reach, then fewer spaces than a tab. */
  predicate Normal(line: string, tabLength: int)
  {
    if |line| > 0 && line[0] == '\t' then Normal(line[1..], tabLength)
    else Lead(line) < tabLength && line == Pad(' ', Lead(line), Text(line))
  }

  function NormalForm(width: nat, text: string, tabLength: int): string
    requires tabLength > 0
  {
    if width < tabLength then Pad(' ', width, text) else ['\t'] + NormalForm(width - tabLength, text, tabLength)
  }

  /** A line is normal exactly when it is the normal form of its own width. */
  lemma {:induction false} NormalIsTheForm(line: string, tabLength: int)
    requires tabLength > 0
    ensures Normal(line, tabLength) <==> line == NormalForm(Units(line, tabLength), Text(line), tabLength)
    decreases |line|
  {
    var text := Text(line);
    TextStarts(line);
    if |line| > 0 && line[0] == '\t' {
      assert Text(line[1..]) == text;
      NormalIsTheForm(line[1..], tabLength);
      assert line == ['\t'] + line[1..];
    } else {
      StartsAtZero(text, 0, tabLength);
      SpacesMeasure(Lead(line), text, 0, tabLength);
      if Units(line, tabLength) < tabLength {
        PadLead(' ', Units(line, tabLength), text);
      }
    }
  }

  lemma {:induction false} FormIsNormal(width: nat, text: string, tabLength: int)
    requires Starts(text) && tabLength > 0
    ensures var line := NormalForm(width, text, tabLength);
            Normal(line, tabLength) && Text(line) == text && Units(line, tabLength) == width
    decreases width
  {
    if width < tabLength {
      SpacesAreNormal(width, text, tabLength);
    } else {
      FormIsNormal(width - tabLength, text, tabLength);
      TabKeepsNormal(NormalForm(width - tabLength, text, tabLength), tabLength);
    }
  }

  lemma {:induction false} SpacesAreNormal(width: nat, text: string, tabLength: int)
    requires Starts(text) && width < tabLength
    ensures var line := Pad(' ', width, text);
            Normal(line, tabLength) && Text(line) == text && Units(line, tabLength) == width
  {
    StartsAtZero(text, 0, tabLength);
    PadLead(' ', width, text);
    SpacesMeasure(width, text, 0, tabLength);
  }

  lemma {:induction false} TabKeepsNormal(rest: string, tabLength: int)
    requires tabLength > 0
    ensures var line := ['\t'] + rest;
            (Normal(line, tabLength) <==> Normal(rest, tabLength)) && Text(line) == Text(rest) &&
            Units(line, tabLength) == tabLength + Units(rest, tabLength)
  {
    var line := ['\t'] + rest;
    assert line[1..] == rest;
    assert line[Lead(line)..] == rest[Lead(rest)..];
  }

  lemma {:induction false} FormWidth(width: nat, text: string, column: nat, tabLength: int)
    requires Starts(text) && tabLength > 0 && Rem(column, tabLength) == 0
    ensures Width(NormalForm(width, text, tabLength), column, tabLength) == column + width
    decreases width
  {
    if width < tabLength {
      SpacesMeasure(width, text, column, tabLength);
    } else {
      assert Rem(column + tabLength, tabLength) == 0;
      FormWidth(width - tabLength, text, column + tabLength, tabLength);
      assert NormalForm(width, text, tabLength)[1..] == NormalForm(width - tabLength, text, tabLength);
    }
  }

  /** Tabs in front of a normal form. */
  lemma {:induction false} FormAfterTabs(n: nat, width: nat, text: string, tabLength: int)
    requires tabLength > 0
    ensures Pad('\t', n, NormalForm(width, text, tabLength)) == NormalForm(Times(n, tabLength) + width, text, tabLength)
    decreases n
  {
    if n > 0 {
      FormAfterTabs(n - 1, width, text, tabLength);
    }
  }

  function Indent(a: nat, b: nat, text: string): string
  {
    Pad('\t', a, Pad(' ', b, text))
  }

  /** Division shares a width out into the normal form. */
  lemma {:induction false} DivisionGivesTheForm(n: nat, text: string, tabLength: int)
    requires tabLength > 0
    ensures Indent(Quot(n, tabLength), Rem(n, tabLength), text) == NormalForm(n, text, tabLength)
    decreases n
  {
    if n >= tabLength {
      DivisionGivesTheForm(n - tabLength, text, tabLength);
    }
  }

  // ---------------------------------------------------------------------
  // preLineWS
  // ---------------------------------------------------------------------

  function Total(o: Settings, indent: nat, space: nat): nat
  {
    Times(indent, o.indentLength) + space
  }

  /** How many indent strings and how many spaces are written. */
  function Shares(o: Settings, indent: nat, space: nat): (nat, nat)
  {
    if !o.forceTab then (indent, space)
    else if o.tabLength != o.indentLength then
      (Quot(Total(o, indent, space), o.tabLength), Rem(Total(o, indent, space), o.tabLength))
    else (indent + Quot(space, o.indentLength), Rem(space, o.indentLength))
  }

  function IndentString(o: Settings): string
  {
    if o.tabs then "\t" else Pad(' ', o.indentLength, "")
  }

  function Copies(s: string, n: nat): string
  {
    if n == 0 then "" else Copies(s, n - 1) + s
  }

  function PreLineWS(o: Settings, indent: nat, space: nat): string
  {
    var (a, b) := Shares(o, indent, space);
    Copies(IndentString(o), a) + Pad(' ', b, "")
  }

  // Counts may be negative: what is negative in the end is not written.

  function SignedQuot(n: int, d: int): int
    requires d > 0
  {
    if n >= 0 then Quot(n, d) else 0 - Quot(-n, d)
  }

  function SignedRem(n: int, d: int): int
    requires d > 0
  {
    if n >= 0 then Rem(n, d) else 0 - Rem(-n, d)
  }

  function SignedTimes(n: int, d: int): int
    requires d >= 0
  {
    if n >= 0 then Times(n, d) else 0 - Times(-n, d)
  }

  lemma {:induction false} SignedTimesIs(n: int, d: int)
    requires d >= 0
    ensures SignedTimes(n, d) == n * d
  {
    if n >= 0 {
      TimesIs(n, d);
    } else {
      TimesIs(-n, d);
      assert -n * d == -(n * d);
    }
  }

  function SignedPreLineWS(o: Settings, indent: int, space: int): string
  {
    var total := SignedTimes(indent, o.indentLength) + space;
    var a := if !o.forceTab then indent
             else if o.tabLength != o.indentLength then SignedQuot(total, o.tabLength)
             else indent + SignedQuot(space, o.indentLength);
    var b := if !o.forceTab then space
             else if o.tabLength != o.indentLength then SignedRem(total, o.tabLength)
             else SignedRem(space, o.indentLength);
    Copies(IndentString(o), if a > 0 then a else 0) + Pad(' ', if b > 0 then b else 0, "")
  }

  lemma {:induction false} SignedIsPlain(o: Settings, indent: nat, space: nat)
    ensures SignedPreLineWS(o, indent, space) == PreLineWS(o, indent, space)
  {
  }

  function Nonnegative(n: int): nat
  {
    if n > 0 then n else 0
  }

  /**
   What negative counts come to: each counts as none; forced tabs of another length first
   add them up; forced tabs of the same length take whole tabs off for missing spaces.
   */
  lemma {:induction false} NegativeCounts(o: Settings, indent: int, space: int)
    ensures var total := indent * o.indentLength + space;
            SignedPreLineWS(o, indent, space) ==
            if !o.forceTab then PreLineWS(o, Nonnegative(indent), Nonnegative(space))
            else if o.tabLength != o.indentLength then PreLineWS(o, 0, Nonnegative(total))
            else if space < 0 then PreLineWS(o, Nonnegative(indent - -space / o.indentLength), 0)
            else if indent + space / o.indentLength < 0 then PreLineWS(o, 0, space % o.indentLength)
            else PreLineWS(o, indent + space / o.indentLength, space % o.indentLength)
  {
    SignedTimesIs(indent, o.indentLength);
    DivisionIs(if space < 0 then -space else space, o.indentLength);
    var total := indent * o.indentLength + space;
    DivisionIs(if total < 0 then -total else total, o.tabLength);
  }

  lemma {:induction false} CopiesAre(c: char, length: nat, n: nat)
    ensures Copies(Pad(c, length, ""), n) == Pad(c, Times(n, length), "")
    decreases n
  {
    if n > 0 {
      CopiesAre(c, length, n - 1);
      PadFront(c, Times(n - 1, length), Pad(c, length, ""));
      PadSum(c, Times(n - 1, length), length, "");
    }
  }

  lemma {:induction false} TimesOne(n: nat)
    ensures Times(n, 1) == n
  {
    if n > 0 {
      TimesOne(n - 1);
    }
  }

  lemma {:induction false} PreLineTabs(o: Settings, indent: nat, space: nat, text: string)
    requires o.tabs
    ensures var (a, b) := Shares(o, indent, space); PreLineWS(o, indent, space) + text == Indent(a, b, text)
  {
    var (a, b) := Shares(o, indent, space);
    assert IndentString(o) == Pad('\t', 1, "");
    CopiesAre('\t', 1, a);
    TimesOne(a);
    JoinPads('\t', a, b, text);
  }

  lemma {:induction false} PreLineSpaces(o: Settings, indent: nat, space: nat, text: string)
    requires !o.tabs
    ensures var (a, b) := Shares(o, indent, space);
            PreLineWS(o, indent, space) + text == Pad(' ', Times(a, o.indentLength) + b, text)
  {
    var (a, b) := Shares(o, indent, space);
    CopiesAre(' ', o.indentLength, a);
    JoinPads(' ', Times(a, o.indentLength), b, text);
    PadSum(' ', Times(a, o.indentLength), b, text);
  }

  lemma {:induction false} JoinPads(c: char, a: nat, b: nat, text: string)
    ensures Pad(c, a, "") + Pad(' ', b, "") + text == Pad(c, a, Pad(' ', b, text))
  {
    PadFront(c, a, Pad(' ', b, ""));
    PadConcat(c, a, Pad(' ', b, ""), text);
    PadFront(' ', b, text);
  }

  /**
   Which settings and counts the indent comes out right for. The setters can be
   called in any order: a forced tab can meet an indent of spaces, and a tab that is
   not forced a different tab length.
   */
  predicate Faithful(o: Settings, indent: nat, space: nat)
  {
    o.tabLength == o.indentLength ||
    if o.forceTab then o.tabs || Total(o, indent, space) < o.tabLength
    else !o.tabs || indent == 0
  }

  lemma {:induction false} SharedTabs(indent: nat, space: nat, text: string, length: int)
    requires length > 0
    ensures Indent(indent + Quot(space, length), Rem(space, length), text) == NormalForm(Times(indent, length) + space, text, length)
  {
    FormAfterTabs(indent, space, text, length);
    DivisionGivesTheForm(space, text, length);
    PadSum('\t', indent, Quot(space, length), Pad(' ', Rem(space, length), text));
  }

  lemma {:induction false} ForcedForm(o: Settings, indent: nat, space: nat, text: string)
    requires o.forceTab && o.tabs
    ensures var (a, b) := Shares(o, indent, space);
            Indent(a, b, text) == NormalForm(Total(o, indent, space), text, o.tabLength)
  {
    if o.tabLength != o.indentLength {
      DivisionGivesTheForm(Total(o, indent, space), text, o.tabLength);
    } else {
      SharedTabs(indent, space, text, o.tabLength);
    }
  }

  /** Forced tabs give the one normal form of the width: never a tab's worth of spaces. */
  lemma {:induction false} ForcedIsNormal(o: Settings, indent: nat, space: nat, text: string)
    requires o.forceTab && o.tabs && Starts(text)
    ensures PreLineWS(o, indent, space) + text == NormalForm(Total(o, indent, space), text, o.tabLength)
    ensures Normal(PreLineWS(o, indent, space) + text, o.tabLength)
  {
    PreLineTabs(o, indent, space, text);
    ForcedForm(o, indent, space, text);
    FormIsNormal(Total(o, indent, space), text, o.tabLength);
  }

  /** The white space is as wide as the counts say exactly when the settings agree. */
  lemma {:induction false} WidthIsTheIndent(o: Settings, indent: nat, space: nat, text: string)
    requires Starts(text)
    ensures Width(PreLineWS(o, indent, space) + text, 0, o.tabLength) == indent * o.indentLength + space
            <==> Faithful(o, indent, space)
  {
    TimesIs(indent, o.indentLength);
    StartsAtZero(text, Total(o, indent, space), o.tabLength);
    if o.tabs && o.forceTab {
      ForcedIsNormal(o, indent, space, text);
      FormWidth(Total(o, indent, space), text, 0, o.tabLength);
    } else if o.tabs {
      TabsWidth(o, indent, space, text);
    } else {
      SpacesWidth(o, indent, space, text);
    }
  }

  lemma {:induction false} SameTimes(n: nat, x: nat, y: nat)
    ensures Times(n, x) == Times(n, y) <==> n == 0 || x == y
  {
    if x < y {
      TimesGrows(n, x, y);
    } else if y < x {
      TimesGrows(n, y, x);
    }
  }

  lemma {:induction false} TabsWidth(o: Settings, indent: nat, space: nat, text: string)
    requires Starts(text) && o.tabs && !o.forceTab
    ensures Width(PreLineWS(o, indent, space) + text, 0, o.tabLength) == Total(o, indent, space)
            <==> Faithful(o, indent, space)
  {
    var column := Times(indent, o.tabLength);
    PreLineTabs(o, indent, space, text);
    TabsMeasure(indent, Pad(' ', space, text), 0, o.tabLength);
    SpacesMeasure(space, text, column, o.tabLength);
    StartsAtZero(text, column + space, o.tabLength);
    SameTimes(indent, o.tabLength, o.indentLength);
  }

  lemma {:induction false} SpacesWidth(o: Settings, indent: nat, space: nat, text: string)
    requires Starts(text) && !o.tabs
    ensures Width(PreLineWS(o, indent, space) + text, 0, o.tabLength) == Total(o, indent, space)
            <==> Faithful(o, indent, space)
  {
    var (a, b) := Shares(o, indent, space);
    var column := Times(a, o.indentLength) + b;
    PreLineSpaces(o, indent, space, text);
    SpacesMeasure(column, text, 0, o.tabLength);
    StartsAtZero(text, column, o.tabLength);
    SpacesTotal(o, indent, space);
  }

  lemma {:induction false} SpacesTotal(o: Settings, indent: nat, space: nat)
    requires !o.tabs
    ensures var (a, b) := Shares(o, indent, space);
            Times(a, o.indentLength) + b == Total(o, indent, space) <==> Faithful(o, indent, space)
  {
    if o.forceTab && o.tabLength == o.indentLength {
      TimesSum(indent, Quot(space, o.indentLength), o.indentLength);
      QuotRem(space, o.indentLength);
    } else if o.forceTab {
      QuotRem(Total(o, indent, space), o.tabLength);
      SameTimes(Quot(Total(o, indent, space), o.tabLength), o.indentLength, o.tabLength);
    }
  }

  // ---------------------------------------------------------------------
  // Indenting and unindenting a finished line
  // ---------------------------------------------------------------------

  /** Tabs of one length, indents of another: "force-tab-x". */
  predicate ForceX(o: Settings)
  {
    o.forceTab && o.indentLength != o.tabLength
  }

  function Expanded(line: string, tabLength: int): string
    requires tabLength > 0
  {
    Pad(' ', Units(line, tabLength), Text(line))
  }

  function TabChars(line: string, tabLength: int): (r: nat)
    requires tabLength > 0
    ensures r <= Lead(line)
  {
    QuotRem(Lead(line), tabLength);
    Times(Quot(Lead(line), tabLength), tabLength)
  }

  /** Spaces replaced by tabs, `tabLength` characters for one. */
  function Tabbed(line: string, tabLength: int): string
    requires tabLength > 0
  {
    Pad('\t', Quot(Lead(line), tabLength), line[TabChars(line, tabLength)..])
  }

  function Indented(o: Settings, line: string, indent: nat): string
  {
    if |line| == 0 && !o.emptyLineFill then line
    else if ForceX(o) then Tabbed(Pad(' ', Times(indent, o.indentLength), Expanded(line, o.tabLength)), o.tabLength)
    else if o.tabs then Pad('\t', indent, line)
    else Pad(' ', Times(indent, o.indentLength), line)
  }

  function Dropped(line: string, n: nat): string
  {
    if n <= Lead(line) then line[n..] else line
  }

  function Unindented(o: Settings, line: string, unindent: nat): string
  {
    if Lead(line) == 0 then line
    else if ForceX(o) then Tabbed(Dropped(Expanded(line, o.tabLength), Times(unindent, o.indentLength)), o.tabLength)
    else if o.tabs then Dropped(line, unindent)
    else Dropped(line, Times(unindent, o.indentLength))
  }

  lemma {:induction false} TabbedSpaces(n: nat, text: string, tabLength: int)
    requires Starts(text) && tabLength > 0
    ensures Tabbed(Pad(' ', n, text), tabLength) == NormalForm(n, text, tabLength)
  {
    PadLead(' ', n, text);
    QuotRem(n, tabLength);
    PadDrop(' ', n, Times(Quot(n, tabLength), tabLength), text);
    DivisionGivesTheForm(n, text, tabLength);
  }

  lemma {:induction false} SpacesDropped(w: nat, n: nat, text: string)
    requires Starts(text)
    ensures Dropped(Pad(' ', w, text), n) == Pad(' ', if n <= w then w - n else w, text)
  {
    PadLead(' ', w, text);
    if n <= w {
      PadDrop(' ', w, n, text);
    }
  }

  /** In force-tab-x mode both calls leave a normal line, wider or narrower by whole indents. */
  lemma {:induction false} IndentedIs(o: Settings, line: string, k: nat, w: nat, text: string)
    requires ForceX(o) && text != "" && text == Text(line) && w == Units(line, o.tabLength)
    ensures Indented(o, line, k) == NormalForm(w + Times(k, o.indentLength), text, o.tabLength)
  {
    TextStarts(line);
    PadSum(' ', Times(k, o.indentLength), w, text);
    TabbedSpaces(Times(k, o.indentLength) + w, text, o.tabLength);
  }

  lemma {:induction false} UnindentedIs(o: Settings, line: string, k: nat, w: nat, text: string)
    requires ForceX(o) && text != "" && text == Text(line) && w == Units(line, o.tabLength)
    ensures var n := Times(k, o.indentLength);
            Lead(line) > 0 ==> Unindented(o, line, k) == NormalForm(if n <= w then w - n else w, text, o.tabLength)
  {
    var n := Times(k, o.indentLength);
    TextStarts(line);
    SpacesDropped(w, n, text);
    TabbedSpaces(if n <= w then w - n else w, text, o.tabLength);
  }

  lemma {:induction false} UnindentForm(o: Settings, line: string, w: nat, text: string, k: nat)
    requires ForceX(o) && Starts(text) && text != ""
    requires line == NormalForm(w + Times(k, o.indentLength), text, o.tabLength)
    ensures Unindented(o, line, k) == NormalForm(w, text, o.tabLength)
  {
    FormIsNormal(w + Times(k, o.indentLength), text, o.tabLength);
    if Lead(line) == 0 {
      assert Units(line, o.tabLength) == 0;
    } else {
      UnindentedIs(o, line, k, w + Times(k, o.indentLength), text);
    }
  }

  lemma {:induction false} ForceXRoundTrip(o: Settings, line: string, k: nat)
    requires ForceX(o) && !Blank(line)
    ensures Unindented(o, Indented(o, line, k), k) == line <==> Normal(line, o.tabLength)
  {
    TextStarts(line);
    IndentedIs(o, line, k, Units(line, o.tabLength), Text(line));
    UnindentForm(o, Indented(o, line, k), Units(line, o.tabLength), Text(line), k);
    NormalIsTheForm(line, o.tabLength);
  }

  /**
   On a blank line the search for the first text finds nothing, and the tabs it asks for
   (the greatest `size_t` over the tab length) are more than a string can hold: the call throws.
   */
  function IndentedLine(o: Settings, line: string, indent: nat): Option<string>
  {
    if (|line| > 0 || o.emptyLineFill) && ForceX(o) && Blank(line) then None else Some(Indented(o, line, indent))
  }

  function UnindentedLine(o: Settings, line: string, unindent: nat): Option<string>
  {
    if |line| > 0 && ForceX(o) && Blank(line) then None else Some(Unindented(o, line, unindent))
  }

  /** Can the line be indented and come back? */
  predicate ComesBack(o: Settings, line: string)
  {
    ForceX(o) ==> if Blank(line) then line == "" && !o.emptyLineFill else Normal(line, o.tabLength)
  }

  /**
   Unindenting takes back what indenting by the same amount put in, on every line
   and in every mode, except that force-tab-x also rewrites the indent it finds, and
   throws on a blank line: there the line comes back exactly when its indent was normal.
   */
  lemma {:induction false} UnindentUndoesIndent(o: Settings, line: string, k: nat)
    ensures var indented := IndentedLine(o, line, k);
            indented.Some? && UnindentedLine(o, indented.value, k) == Some(line) <==> ComesBack(o, line)
  {
    if IndentedLine(o, line, k).Some? {
      LineComesBack(o, line, k);
      if ForceX(o) && !Blank(line) {
        TextStarts(line);
        IndentedIs(o, line, k, Units(line, o.tabLength), Text(line));
        FormIsNormal(Units(line, o.tabLength) + Times(k, o.indentLength), Text(line), o.tabLength);
        TextStarts(Indented(o, line, k));
      }
    }
  }

  lemma {:induction false} LineComesBack(o: Settings, line: string, k: nat)
    requires IndentedLine(o, line, k).Some?
    ensures Unindented(o, Indented(o, line, k), k) == line <==> ComesBack(o, line)
  {
    if |line| == 0 && !o.emptyLineFill {
      assert Text(line) == "";
    } else if ForceX(o) {
      ForceXRoundTrip(o, line, k);
    } else if o.tabs {
      PlainRoundTrip('\t', k, line);
    } else {
      PlainRoundTrip(' ', Times(k, o.indentLength), line);
    }
  }

  /** The characters an indent of `k` is worth. */
  function Worth(o: Settings, k: nat): nat
  {
    if o.tabs && !ForceX(o) then k else Times(k, o.indentLength)
  }

  /** The white space of a line, as the enhancer measures it in this mode. */
  function Measure(o: Settings, line: string): nat
  {
    if ForceX(o) then Units(line, o.tabLength) else Lead(line)
  }

  function Inserted(o: Settings, line: string, indent: nat): nat
  {
    if |line| == 0 && !o.emptyLineFill then 0 else Worth(o, indent)
  }

  function Erased(o: Settings, line: string, unindent: nat): nat
  {
    if Lead(line) > 0 && Worth(o, unindent) <= Measure(o, line) then Worth(o, unindent) else 0
  }

  /** The count that each call returns is the white space by which the line has grown or shrunk. */
  lemma {:induction false} CountsAreExact(o: Settings, line: string, k: nat)
    requires ForceX(o) ==> !Blank(line)
    ensures Measure(o, Indented(o, line, k)) == Measure(o, line) + Inserted(o, line, k)
    ensures Measure(o, Unindented(o, line, k)) + Erased(o, line, k) == Measure(o, line)
  {
    if ForceX(o) {
      TextStarts(line);
      ForceXInserts(o, line, k, Units(line, o.tabLength), Text(line));
      ForceXErases(o, line, k, Units(line, o.tabLength), Text(line));
    } else if o.tabs {
      PlainCounts('\t', k, line);
    } else {
      PlainCounts(' ', Worth(o, k), line);
    }
  }

  lemma {:induction false} PlainCounts(c: char, n: nat, line: string)
    requires IsWhiteSpace(c)
    ensures Lead(Pad(c, n, line)) == Lead(line) + n
    ensures n <= Lead(line) ==> Lead(Dropped(line, n)) + n == Lead(line)
    decreases n
  {
    PadLead(c, n, line);
    LeadDrop(line, n);
  }

  lemma {:induction false} LeadDrop(line: string, n: nat)
    ensures n <= Lead(line) ==> Lead(line[n..]) + n == Lead(line)
    decreases n
  {
    if 0 < n <= Lead(line) {
      LeadDrop(line[1..], n - 1);
      assert line[1..][n - 1..] == line[n..];
    } else {
      assert line[0..] == line;
    }
  }

  lemma {:induction false} ForceXInserts(o: Settings, line: string, k: nat, w: nat, text: string)
    requires ForceX(o) && text != "" && Starts(text) && text == Text(line) && w == Units(line, o.tabLength)
    ensures Units(Indented(o, line, k), o.tabLength) == w + Times(k, o.indentLength)
  {
    IndentedIs(o, line, k, w, text);
    FormMeasures(w + Times(k, o.indentLength), text, o.tabLength);
  }

  lemma {:induction false} ForceXErases(o: Settings, line: string, k: nat, w: nat, text: string)
    requires ForceX(o) && text != "" && Starts(text) && text == Text(line) && w == Units(line, o.tabLength)
    ensures Units(Unindented(o, line, k), o.tabLength) + Erased(o, line, k) == w
  {
    var n := Times(k, o.indentLength);
    if Lead(line) > 0 {
      UnindentedIs(o, line, k, w, text);
      FormMeasures(if n <= w then w - n else w, text, o.tabLength);
    }
  }

  lemma {:induction false} FormMeasures(width: nat, text: string, tabLength: int)
    requires Starts(text) && tabLength > 0
    ensures Units(NormalForm(width, text, tabLength), tabLength) == width
  {
    FormIsNormal(width, text, tabLength);
  }

  lemma {:induction false} PlainRoundTrip(c: char, n: nat, line: string)
    requires IsWhiteSpace(c)
    ensures Dropped(Pad(c, n, line), n) == line && (Lead(Pad(c, n, line)) == 0 ==> Pad(c, n, line) == line)
  {
    PadLead(c, n, line);
    PadDrop(c, n, n, line);
  }

  /** Any line the beautifier indents with forced tabs survives an indent and unindent of the enhancer. */
  lemma {:induction false} BeautifiedLineIsRestored(o: Settings, indent: nat, space: nat, text: string, k: nat)
    requires o.forceTab && o.tabs && Starts(text) && text != ""
    ensures var line := PreLineWS(o, indent, space) + text; Unindented(o, Indented(o, line, k), k) == line
  {
    var line := PreLineWS(o, indent, space) + text;
    ForcedIsNormal(o, indent, space, text);
    FormIsNormal(Total(o, indent, space), text, o.tabLength);
    TextStarts(line);
    UnindentUndoesIndent(o, line, k);
  }

  /** The spaces written when the indent string is of spaces. */
  function SpacesWritten(o: Settings, indent: nat, space: nat): nat
  {
    var (a, b) := Shares(o, indent, space);
    Times(a, o.indentLength) + b
  }

  /**
   Only forced tabs over an indent string of spaces set the beautifier and the
   enhancer at odds: there the enhancer writes tabs, so the wider line has to be
   narrower than a tab, and no tab may be completed by the added indents.
   */
  predicate Agrees(o: Settings, indent: nat, space: nat, k: nat)
  {
    o.tabs || !ForceX(o) ||
    (Quot(Total(o, indent, space), o.tabLength) == Quot(Total(o, indent + k, space), o.tabLength) &&
     SpacesWritten(o, indent + k, space) < o.tabLength)
  }

  /**
   The enhancer's indent is the beautifier's: the line it gives is the one `preLineWS`
   gives for more indents, exactly under these settings and counts.
   */
  lemma {:induction false} IndentAddsIndents(o: Settings, indent: nat, space: nat, text: string, k: nat)
    requires Starts(text) && text != ""
    ensures Indented(o, PreLineWS(o, indent, space) + text, k) == PreLineWS(o, indent + k, space) + text
            <==> Agrees(o, indent, space, k)
  {
    if o.tabs {
      TabsAdd(o, indent, space, text, k);
    } else if ForceX(o) {
      SpacesUnderForcedTabs(o, indent, space, text, k);
    } else {
      SpacesAdd(o, indent, space, text, k);
    }
  }

  lemma {:induction false} TabsAdd(o: Settings, indent: nat, space: nat, text: string, k: nat)
    requires Starts(text) && text != "" && o.tabs
    ensures Indented(o, PreLineWS(o, indent, space) + text, k) == PreLineWS(o, indent + k, space) + text
  {
    if ForceX(o) {
      ForceXAdds(o, indent, space, text, k);
    } else {
      var (a, b) := Shares(o, indent, space);
      PreLineTabs(o, indent, space, text);
      PreLineTabs(o, indent + k, space, text);
      PadSum('\t', k, a, Pad(' ', b, text));
    }
  }

  lemma {:induction false} SpacesAdd(o: Settings, indent: nat, space: nat, text: string, k: nat)
    requires Starts(text) && text != "" && !o.tabs && !ForceX(o)
    ensures Indented(o, PreLineWS(o, indent, space) + text, k) == PreLineWS(o, indent + k, space) + text
  {
    PreLineSpaces(o, indent, space, text);
    PreLineSpaces(o, indent + k, space, text);
    MoreSpaces(o, indent, space, k);
    PadSum(' ', Times(k, o.indentLength), SpacesWritten(o, indent, space), text);
  }

  lemma {:induction false} MoreSpaces(o: Settings, indent: nat, space: nat, k: nat)
    requires !ForceX(o)
    ensures SpacesWritten(o, indent + k, space) == SpacesWritten(o, indent, space) + Times(k, o.indentLength)
  {
    var (a, b) := Shares(o, indent, space);
    TimesSum(a, k, o.indentLength);
  }

  lemma {:induction false} SpacesAre(o: Settings, indent: nat, space: nat, text: string)
    requires !o.tabs
    ensures PreLineWS(o, indent, space) + text == Pad(' ', SpacesWritten(o, indent, space), text)
  {
    PreLineSpaces(o, indent, space, text);
  }

  lemma {:induction false} WhenTheyAgree(o: Settings, indent: nat, space: nat, k: nat)
    requires !o.tabs && ForceX(o)
    ensures var w, w' := SpacesWritten(o, indent, space) + Times(k, o.indentLength), SpacesWritten(o, indent + k, space);
            w == w' && w < o.tabLength <==> Agrees(o, indent, space, k)
  {
    SameShare(o, indent, space, k);
  }

  lemma {:induction false} SpacesUnderForcedTabs(o: Settings, indent: nat, space: nat, text: string, k: nat)
    requires Starts(text) && text != "" && !o.tabs && ForceX(o)
    ensures Indented(o, PreLineWS(o, indent, space) + text, k) == PreLineWS(o, indent + k, space) + text
            <==> Agrees(o, indent, space, k)
  {
    SpacesAre(o, indent, space, text);
    SpacesAre(o, indent + k, space, text);
    SpacesMeetTabs(o, PreLineWS(o, indent, space) + text, SpacesWritten(o, indent, space), SpacesWritten(o, indent + k, space), text, k);
    WhenTheyAgree(o, indent, space, k);
  }

  lemma {:induction false} SpacesMeetTabs(o: Settings, line: string, w: nat, w': nat, text: string, k: nat)
    requires ForceX(o) && Starts(text) && text != "" && line == Pad(' ', w, text)
    ensures var n := w + Times(k, o.indentLength);
            Indented(o, line, k) == Pad(' ', w', text) <==> n == w' && n < o.tabLength
  {
    IndentedSpaces(o, line, w, text, k);
    FormOfSpaces(w + Times(k, o.indentLength), w', text, o.tabLength);
  }

  lemma {:induction false} IndentedSpaces(o: Settings, line: string, w: nat, text: string, k: nat)
    requires ForceX(o) && Starts(text) && text != "" && line == Pad(' ', w, text)
    ensures Indented(o, line, k) == NormalForm(w + Times(k, o.indentLength), text, o.tabLength)
  {
    StartsAtZero(text, 0, o.tabLength);
    PadLead(' ', w, text);
    SpacesMeasure(w, text, 0, o.tabLength);
    IndentedIs(o, line, k, w, text);
  }

  lemma {:induction false} FormOfSpaces(n: nat, m: nat, text: string, tabLength: int)
    requires Starts(text) && text != "" && tabLength > 0
    ensures NormalForm(n, text, tabLength) == Pad(' ', m, text) <==> n == m && n < tabLength
  {
    var form, spaces := NormalForm(n, text, tabLength), Pad(' ', m, text);
    assert spaces[0] == if m > 0 then ' ' else text[0];
    if n >= tabLength {
      assert form[0] == '\t';
    } else if n != m {
      assert |form| != |spaces|;
    }
  }

  /** The spaces grow by whole indents exactly when no tab is completed. */
  lemma {:induction false} SameShare(o: Settings, indent: nat, space: nat, k: nat)
    requires ForceX(o)
    ensures SpacesWritten(o, indent, space) + Times(k, o.indentLength) == SpacesWritten(o, indent + k, space) <==>
            Quot(Total(o, indent, space), o.tabLength) == Quot(Total(o, indent + k, space), o.tabLength)
  {
    var t, t' := Total(o, indent, space), Total(o, indent + k, space);
    var q, q' := Quot(t, o.tabLength), Quot(t', o.tabLength);
    TimesSum(indent, k, o.indentLength);
    QuotRem(t, o.tabLength);
    QuotRem(t', o.tabLength);
    if q < q' {
      SharesDiffer(q, q' - q, o.indentLength, o.tabLength);
    } else if q' < q {
      SharesDiffer(q', q - q', o.indentLength, o.tabLength);
    }
  }

  lemma {:induction false} SharesDiffer(q: nat, d: nat, x: nat, y: nat)
    requires d > 0 && x != y
    ensures Times(q + d, x) - Times(q, x) != Times(q + d, y) - Times(q, y)
  {
    TimesSum(q, d, x);
    TimesSum(q, d, y);
    SameTimes(d, x, y);
  }

  /** An indent of four spaces under forced tabs of eight: the two disagree on the first indent. */
  lemma {:induction false} FourUnderEight(o: Settings, text: string)
    requires !o.tabs && o.forceTab && o.indentLength == 4 && o.tabLength == 8 && Starts(text) && text != ""
    ensures Indented(o, PreLineWS(o, 1, 0) + text, 1) != PreLineWS(o, 2, 0) + text
  {
    IndentAddsIndents(o, 1, 0, text, 1);
    assert Times(1, 4) == 4 && Times(2, 4) == 8;
    assert Quot(4, 8) == 0 && Quot(8, 8) == 1;
  }

  lemma {:induction false} IndentForm(o: Settings, line: string, w: nat, text: string, k: nat)
    requires ForceX(o) && Starts(text) && text != "" && line == NormalForm(w, text, o.tabLength)
    ensures Indented(o, line, k) == NormalForm(w + Times(k, o.indentLength), text, o.tabLength)
  {
    FormIsNormal(w, text, o.tabLength);
    IndentedIs(o, line, k, w, text);
  }

  lemma {:induction false} ForceXAdds(o: Settings, indent: nat, space: nat, text: string, k: nat)
    requires Starts(text) && text != "" && ForceX(o) && o.tabs
    ensures Indented(o, PreLineWS(o, indent, space) + text, k) == PreLineWS(o, indent + k, space) + text
  {
    ForcedIsNormal(o, indent, space, text);
    ForcedIsNormal(o, indent + k, space, text);
    TimesSum(indent, k, o.indentLength);
    var w := Total(o, indent, space);
    assert Total(o, indent + k, space) == w + Times(k, o.indentLength);
    IndentForm(o, PreLineWS(o, indent, space) + text, w, text, k);
  }

  // ---------------------------------------------------------------------
  // The code
  // ---------------------------------------------------------------------

  /** `preLineWS` and the setters it depends on. */
  class ASBeautifier {
    var indentString: string
    var indentLength: int
    var tabLength: int
    var shouldForceTabIndentation: bool

    ghost predicate Valid()
      reads this
    {
      indentLength > 0 && tabLength >= 0 && (indentString == "\t" || indentString == Pad(' ', indentLength, ""))
    }

    ghost function View(): Settings
      requires Valid() && tabLength > 0
      reads this
    {
      Options(indentString == "\t", shouldForceTabIndentation, indentLength, tabLength, false)
    }

    constructor ()
      ensures Valid() && indentString == Pad(' ', 4, "") && indentLength == 4 && tabLength == 0
      ensures !shouldForceTabIndentation
    {
      indentString, indentLength, tabLength, shouldForceTabIndentation := Pad(' ', 4, ""), 4, 0, false;
    }

    method SetDefaultTabLength()
      requires Valid()
      modifies this`tabLength
      ensures Valid() && tabLength == indentLength
    {
      tabLength := indentLength;
    }

    /** The indent length is kept, so an indent of spaces becomes one of tabs with another length. */
    method SetForceTabXIndentation(length: int)
      requires Valid() && length > 0
      modifies this`indentString, this`tabLength, this`shouldForceTabIndentation
      ensures Valid() && indentString == "\t" && tabLength == length && shouldForceTabIndentation
    {
      indentString, tabLength, shouldForceTabIndentation := "\t", length, true;
    }

    method SetTabIndentation(length: int, forceTabs: bool)
      requires Valid() && length > 0
      modifies this`indentString, this`indentLength, this`shouldForceTabIndentation
      ensures Valid() && indentString == "\t" && indentLength == length && shouldForceTabIndentation == forceTabs
    {
      indentString, indentLength, shouldForceTabIndentation := "\t", length, forceTabs;
    }

    /** Forced tabs stay forced. */
    method SetSpaceIndentation(length: int)
      requires Valid() && length > 0
      modifies this`indentString, this`indentLength
      ensures Valid() && indentString == Pad(' ', length, "") && indentLength == length
    {
      indentString, indentLength := Pad(' ', length, ""), length;
    }

    method MakePreLineWS(lineIndentCount: int, lineSpaceIndentCount: int) returns (ws: string)
      requires Valid() && tabLength > 0
      ensures ws == SignedPreLineWS(View(), lineIndentCount, lineSpaceIndentCount)
      ensures lineIndentCount >= 0 && lineSpaceIndentCount >= 0 ==> ws == PreLineWS(View(), lineIndentCount, lineSpaceIndentCount)
    {
      if lineIndentCount >= 0 && lineSpaceIndentCount >= 0 {
        SignedIsPlain(View(), lineIndentCount, lineSpaceIndentCount);
      }
      var indentCount, spaceCount := lineIndentCount, lineSpaceIndentCount;
      if shouldForceTabIndentation {
        if tabLength != indentLength {
          SignedTimesIs(indentCount, indentLength);
          var total := indentCount * indentLength + spaceCount;
          indentCount, spaceCount := Divide(total, tabLength);
        } else {
          var more;
          more, spaceCount := Divide(spaceCount, indentLength);
          indentCount := indentCount + more;
        }
      }
      ws := IndentAndSpace(if indentCount > 0 then indentCount else 0, if spaceCount > 0 then spaceCount else 0);
    }

    /** Division in C++ rounds towards zero. */
    method Divide(n: int, d: int) returns (quotient: int, remainder: int)
      requires d > 0
      ensures quotient == SignedQuot(n, d) && remainder == SignedRem(n, d)
    {
      var m: nat := if n >= 0 then n else -n;
      DivisionIs(m, d);
      quotient, remainder := m / d, m % d;
      if n < 0 {
        quotient, remainder := -quotient, -remainder;
      }
    }

    method IndentAndSpace(indentCount: nat, spaceCount: nat) returns (ws: string)
      ensures ws == Copies(indentString, indentCount) + Pad(' ', spaceCount, "")
    {
      ws := "";
      var i := 0;
      while i < indentCount
        invariant 0 <= i <= indentCount && ws == Copies(indentString, i)
      {
        ws := ws + indentString;
        i := i + 1;
      }
      ghost var indents := ws;
      var left := spaceCount;
      while left > 0
        invariant 0 <= left <= spaceCount && ws == indents + Pad(' ', spaceCount - left, "")
      {
        PadFront(' ', spaceCount - left, " ");
        PadSum(' ', spaceCount - left, 1, "");
        assert Pad(' ', 1, "") == " ";
        assert ws + " " == indents + (Pad(' ', spaceCount - left, "") + " ");
        ws := ws + " ";
        left := left - 1;
      }
    }
  }

  class ASEnhancer {
    const settings: Settings

    constructor (settings: Settings)
      ensures this.settings == settings
    {
      this.settings := settings;
    }

    method ConvertForceTabIndentToSpaces(line: string) returns (out: string)
      ensures out == Expanded(line, settings.tabLength)
    {
      out := line;
      var i := 0;
      ghost var rest := line;
      while i < |out|
        invariant 0 <= i <= |out| && out == Pad(' ', i, rest)
        invariant i + Units(rest, settings.tabLength) == Units(line, settings.tabLength) && Text(rest) == Text(line)
        decreases |rest|
      {
        PadDrop(' ', i, i, rest);
        assert out[i] == rest[0];
        if !IsWhiteSpace(out[i]) {
          break;
        }
        out, i := ReplaceTab(out, i, rest);
        assert Text(rest) == Text(rest[1..]);
        rest := rest[1..];
      }
      PadDrop(' ', i, i, rest);
    }

    method ReplaceTab(line: string, i: nat, ghost rest: string) returns (out: string, next: nat)
      requires i < |line| && line == Pad(' ', i, rest) && |rest| > 0 && line[i] == rest[0] && IsWhiteSpace(rest[0])
      ensures next == i + (if rest[0] == '\t' then settings.tabLength else 1) && out == Pad(' ', next, rest[1..])
    {
      out, next := line, i;
      PadBreak(i, rest);
      if line[i] == '\t' {
        out := line[..i] + line[i + 1..];
        out := out[..i] + (Pad(' ', settings.tabLength, "") + out[i..]);
        next := next + settings.tabLength - 1;
        PadFront(' ', settings.tabLength, rest[1..]);
        PadFront(' ', i, Pad(' ', settings.tabLength, rest[1..]));
        PadSum(' ', i, settings.tabLength, rest[1..]);
      } else {
        assert rest == Pad(' ', 1, rest[1..]);
        PadSum(' ', i, 1, rest[1..]);
      }
      next := next + 1;
    }

    method FindFirstNotOf(line: string) returns (found: Option<nat>)
      ensures found == if Blank(line) then None else Some(Lead(line))
    {
      var n := 0;
      assert line[0..] == line;
      while n < |line| && IsWhiteSpace(line[n])
        invariant n <= |line| && n + Lead(line[n..]) == Lead(line)
      {
        assert line[n..][1..] == line[n + 1..];
        n := n + 1;
      }
      found := if n < |line| then Some(n) else None;
    }

    method ConvertSpaceIndentToForceTab(line: string) returns (out: Option<string>)
      ensures out == if Blank(line) then None else Some(Tabbed(line, settings.tabLength))
    {
      var newSpaceIndentLength := FindFirstNotOf(line);
      if newSpaceIndentLength.None? {
        return None;
      }
      var tabCount := newSpaceIndentLength.value / settings.tabLength;
      DivisionIs(newSpaceIndentLength.value, settings.tabLength);
      TimesIs(tabCount, settings.tabLength);
      var kept := line[tabCount * settings.tabLength..];
      PadFront('\t', tabCount, kept);
      out := Some(Pad('\t', tabCount, "") + kept);
    }

    method IndentLine(line: string, indent: nat) returns (out: Option<string>, charsToInsert: nat)
      ensures out == IndentedLine(settings, line, indent)
      ensures charsToInsert == Inserted(settings, line, indent)
    {
      if |line| == 0 && !settings.emptyLineFill {
        return Some(line), 0;
      }
      if settings.forceTab && settings.indentLength != settings.tabLength {
        TimesIs(indent, settings.indentLength);
        charsToInsert := indent * settings.indentLength;
        var spaced := ConvertForceTabIndentToSpaces(line);
        ExpandedIsBlank(line, charsToInsert);
        PadFront(' ', charsToInsert, spaced);
        spaced := Pad(' ', charsToInsert, "") + spaced;
        out := ConvertSpaceIndentToForceTab(spaced);
      } else if settings.tabs {
        charsToInsert := indent;
        PadFront('\t', charsToInsert, line);
        out := Some(Pad('\t', charsToInsert, "") + line);
      } else {
        TimesIs(indent, settings.indentLength);
        charsToInsert := indent * settings.indentLength;
        PadFront(' ', charsToInsert, line);
        out := Some(Pad(' ', charsToInsert, "") + line);
      }
    }

    lemma {:induction false} ExpandedIsBlank(line: string, more: nat)
      ensures var spaced := Expanded(line, settings.tabLength);
              Lead(spaced) == Units(line, settings.tabLength) &&
              (Blank(spaced) <==> Blank(line)) && (Blank(Pad(' ', more, spaced)) <==> Blank(line))
    {
      TextStarts(line);
      PadLead(' ', Units(line, settings.tabLength), Text(line));
      PadLead(' ', more, Expanded(line, settings.tabLength));
    }

    method EraseIndent(line: string, n: nat, whitespace: nat) returns (out: string, charsToErase: nat)
      requires whitespace == Lead(line)
      ensures out == Dropped(line, n) && charsToErase == if n <= whitespace then n else 0
    {
      out, charsToErase := line, 0;
      if n <= whitespace {
        out, charsToErase := line[n..], n;
      }
    }

    method UnindentLine(line: string, unindent: nat) returns (out: Option<string>, charsToErase: nat)
      ensures out == UnindentedLine(settings, line, unindent)
      ensures out.Some? ==> charsToErase == Erased(settings, line, unindent)
    {
      var found := FindFirstNotOf(line);
      var whitespace := if found.Some? then found.value else |line|;
      if whitespace == 0 {
        return Some(line), 0;
      }
      TimesIs(unindent, settings.indentLength);
      if settings.forceTab && settings.indentLength != settings.tabLength {
        out, charsToErase := UnindentForceX(line, unindent * settings.indentLength);
      } else {
        var erased;
        erased, charsToErase := EraseIndent(line, if settings.tabs then unindent else unindent * settings.indentLength, whitespace);
        out := Some(erased);
      }
    }

    method UnindentForceX(line: string, n: nat) returns (out: Option<string>, charsToErase: nat)
      ensures out == if Blank(line) then None
                     else Some(Tabbed(Dropped(Expanded(line, settings.tabLength), n), settings.tabLength))
      ensures out.Some? ==> charsToErase == if n <= Units(line, settings.tabLength) then n else 0
    {
      var spaced := ConvertForceTabIndentToSpaces(line);
      ExpandedIsBlank(line, 0);
      var spaceIndentLength := FindFirstNotOf(spaced);
      if spaceIndentLength.None? {
        return None, 0;
      }
      ghost var w := Units(line, settings.tabLength);
      TextStarts(line);
      SpacesDropped(w, n, Text(line));
      spaced, charsToErase := EraseIndent(spaced, n, spaceIndentLength.value);
      PadLead(' ', if n <= w then w - n else w, Text(line));
      out := ConvertSpaceIndentToForceTab(spaced);
    }
  }

  lemma {:induction false} PadBreak(n: nat, rest: string)
    requires |rest| > 0
    ensures Pad(' ', n, rest)[..n] == Pad(' ', n, "") && Pad(' ', n, rest)[n + 1..] == rest[1..]
  {
    PadFront(' ', n, rest);
    PadDrop(' ', n, n, rest);
    assert Pad(' ', n, rest)[n + 1..] == Pad(' ', n, rest)[n..][1..];
  }
}
