/**
 The file-name matcher `wildcmp`: `?` stands for one character and `*` for any
 run of characters. It scans with two pointers and remembers only the last star.
 */
module Wildcmp {

  /** `tolower` of the C locale. */
  function ToLower(c: char): char
  {
    if 'A' <= c <= 'Z' then (c as int + 32) as char else c
  }

  /** One pattern character other than `*` against one data character. */
  predicate Accepts(w: char, d: char, caseSensitive: bool)
  {
    w == '?' || (if caseSensitive then w == d else ToLower(w) == ToLower(d))
  }

  /** The strings a single pattern character stands for. */
  predicate Covers(w: char, piece: string, caseSensitive: bool)
  {
    w == '*' || (|piece| == 1 && (w in ['?', piece[0]] || (!caseSensitive && SameLetter(w, piece[0]))))
  }

  /** An ASCII letter in upper case and in lower case. */
  predicate SameLetter(a: char, b: char)
  {
    ('A' <= a <= 'Z' && b as int == a as int + 32) || ('A' <= b <= 'Z' && a as int == b as int + 32)
  }

  lemma {:induction false} AcceptsWhatItCovers(w: char, d: char, caseSensitive: bool)
    requires w != '*'
    ensures Accepts(w, d, caseSensitive) <==> Covers(w, [d], caseSensitive)
  {
  }

  function Join(pieces: seq<string>): string
  {
    if |pieces| == 0 then "" else pieces[0] + Join(pieces[1..])
  }

  /** The language of a pattern: `data` splits into one piece for each pattern character. */
  ghost predicate InLanguage(wild: string, data: string, caseSensitive: bool)
  {
    exists pieces: seq<string> :: Splits(wild, pieces, data, caseSensitive)
  }

  ghost predicate Splits(wild: string, pieces: seq<string>, data: string, caseSensitive: bool)
  {
    |pieces| == |wild| && Join(pieces) == data &&
    forall i :: 0 <= i < |wild| ==> Covers(wild[i], pieces[i], caseSensitive)
  }

  /** The same language, by recursion on the pattern. */
  predicate Matches(wild: string, data: string, cs: bool)
    decreases |wild|, 0, 0
  {
    if |wild| == 0 then |data| == 0
    else if wild[0] == '*' then MatchesFrom(wild[1..], data, 0, cs)
    else |data| > 0 && Accepts(wild[0], data[0], cs) && Matches(wild[1..], data[1..], cs)
  }

  /** `wild` matches from some position of `data`, no earlier than `from`. */
  predicate MatchesFrom(wild: string, data: string, from: nat, cs: bool)
    decreases |wild|, 1, |data| + 1 - from
  {
    from <= |data| && (Matches(wild, data[from..], cs) || MatchesFrom(wild, data, from + 1, cs))
  }

  lemma {:induction false} MatchStart(wild: string, data: string, from: nat, cs: bool) returns (k: nat)
    requires MatchesFrom(wild, data, from, cs)
    ensures from <= k <= |data| && Matches(wild, data[k..], cs)
    decreases |data| + 1 - from
  {
    k := from;
    if !Matches(wild, data[from..], cs) {
      k := MatchStart(wild, data, from + 1, cs);
    }
  }

  lemma {:induction false} MatchesAt(wild: string, data: string, from: nat, k: nat, cs: bool)
    requires from <= k <= |data| && Matches(wild, data[k..], cs)
    ensures MatchesFrom(wild, data, from, cs)
    decreases k - from
  {
    if from < k {
      MatchesAt(wild, data, from + 1, k, cs);
    }
  }

  lemma {:induction false} MatchesIsInLanguage(wild: string, data: string, cs: bool)
    ensures Matches(wild, data, cs) <==> InLanguage(wild, data, cs)
    decreases |wild|
  {
    if Matches(wild, data, cs) {
      var pieces := MatchSplits(wild, data, cs);
    }
    if InLanguage(wild, data, cs) {
      var pieces :| Splits(wild, pieces, data, cs);
      SplitMatches(wild, pieces, data, cs);
    }
  }

  lemma {:induction false} MatchSplits(wild: string, data: string, cs: bool) returns (pieces: seq<string>)
    requires Matches(wild, data, cs)
    ensures Splits(wild, pieces, data, cs)
    decreases |wild|
  {
    if |wild| == 0 {
      pieces := [];
    } else {
      var k := 1;
      if wild[0] == '*' {
        k := MatchStart(wild[1..], data, 0, cs);
      }
      var rest := MatchSplits(wild[1..], data[k..], cs);
      pieces := [data[..k]] + rest;
      assert pieces[1..] == rest && data[..k] + data[k..] == data;
    }
  }

  lemma {:induction false} SplitMatches(wild: string, pieces: seq<string>, data: string, cs: bool)
    requires Splits(wild, pieces, data, cs)
    ensures Matches(wild, data, cs)
    decreases |wild|
  {
    if |wild| > 0 {
      var k := |pieces[0]|;
      assert data[k..] == Join(pieces[1..]);
      SplitMatches(wild[1..], pieces[1..], data[k..], cs);
      assert Covers(wild[0], pieces[0], cs);
      if wild[0] == '*' {
        MatchesAt(wild[1..], data, 0, k, cs);
      }
    }
  }

  // ---------------------------------------------------------------------
  // Fixed text, and what follows a star
  // ---------------------------------------------------------------------

  /** `n` characters of a star-free pattern accept the same number of data characters. */
  ghost predicate FixedRun(wild: string, data: string, n: nat, cs: bool)
  {
    n <= |wild| && n <= |data| && forall i :: 0 <= i < n ==> wild[i] != '*' && Accepts(wild[i], data[i], cs)
  }

  lemma {:induction false} FixedPrefix(wild: string, data: string, n: nat, cs: bool)
    requires FixedRun(wild, data, n, cs)
    ensures Matches(wild, data, cs) <==> Matches(wild[n..], data[n..], cs)
    decreases n
  {
    if n > 0 {
      FixedPrefix(wild[1..], data[1..], n - 1, cs);
      assert wild[1..][n - 1..] == wild[n..] && data[1..][n - 1..] == data[n..];
    } else {
      assert wild[n..] == wild && data[n..] == data;
    }
  }

  /** A match of a star-free start leaves the rest of the pattern to the rest of the data. */
  lemma {:induction false} StripFixed(wild: string, data: string, n: nat, cs: bool)
    requires n <= |wild| && (forall i :: 0 <= i < n ==> wild[i] != '*') && Matches(wild, data, cs)
    ensures n <= |data| && Matches(wild[n..], data[n..], cs)
    decreases n
  {
    if n > 0 {
      StripFixed(wild[1..], data[1..], n - 1, cs);
      assert wild[1..][n - 1..] == wild[n..] && data[1..][n - 1..] == data[n..];
    } else {
      assert wild[n..] == wild && data[n..] == data;
    }
  }

  lemma {:induction false} LaterStar(wild: string, data: string, k: nat, n: nat, cs: bool) returns (j: nat)
    requires k <= |data| && Matches(wild, data[k..], cs)
    requires n < |wild| && wild[n] == '*' && forall i :: 0 <= i < n ==> wild[i] != '*'
    ensures k + n <= j <= |data| && Matches(wild[n + 1..], data[j..], cs)
  {
    StripFixed(wild, data[k..], n, cs);
    var rest := data[k..][n..];
    var m := MatchStart(wild[n..][1..], rest, 0, cs);
    j := k + n + m;
    assert wild[n..][1..] == wild[n + 1..] && rest[m..] == data[j..];
  }

  lemma {:induction false} EarlierStart(wild: string, data: string, from: nat, n: nat, k: nat, cs: bool)
    requires from <= |data| && FixedRun(wild, data[from..], n, cs) && n < |wild| && wild[n] == '*'
    requires from + n <= k <= |data| && Matches(wild[n + 1..], data[k..], cs)
    ensures Matches(wild, data[from..], cs)
  {
    var rest := data[from..][n..];
    assert wild[n..][1..] == wild[n + 1..] && rest[k - from - n..] == data[k..];
    MatchesAt(wild[n..][1..], rest, 0, k - from - n, cs);
    FixedPrefix(wild, data[from..], n, cs);
  }

  /** Backtracking to the last star is enough: an earlier one can take no useful match away. */
  lemma {:induction false} NextStar(wild: string, data: string, from: nat, n: nat, cs: bool)
    requires from <= |data| && FixedRun(wild, data[from..], n, cs) && n < |wild| && wild[n] == '*'
    ensures MatchesFrom(wild, data, from, cs) <==> MatchesFrom(wild[n + 1..], data, from + n, cs)
  {
    if MatchesFrom(wild, data, from, cs) {
      var k := MatchStart(wild, data, from, cs);
      var j := LaterStar(wild, data, k, n, cs);
      MatchesAt(wild[n + 1..], data, from + n, j, cs);
    }
    if MatchesFrom(wild[n + 1..], data, from + n, cs) {
      var k := MatchStart(wild[n + 1..], data, from + n, cs);
      EarlierStart(wild, data, from, n, k, cs);
      MatchesAt(wild, data, from, from, cs);
    }
  }

  /** When an attempt fails on a fixed character, only later starts remain. */
  lemma {:induction false} AttemptFails(wild: string, data: string, from: nat, n: nat, cs: bool)
    requires from + n < |data| && FixedRun(wild, data[from..], n, cs)
    requires n == |wild| || (wild[n] != '*' && !Accepts(wild[n], data[from + n], cs))
    ensures MatchesFrom(wild, data, from, cs) <==> MatchesFrom(wild, data, from + 1, cs)
  {
    FixedPrefix(wild, data[from..], n, cs);
    assert data[from..][n..][0] == data[from + n];
    assert !Matches(wild, data[from..], cs);
  }

  predicate AllStars(wild: string)
  {
    forall i :: 0 <= i < |wild| ==> wild[i] == '*'
  }

  lemma {:induction false} EmptyMatch(wild: string, cs: bool)
    ensures Matches(wild, "", cs) <==> AllStars(wild)
    decreases |wild|
  {
    if |wild| > 0 {
      EmptyMatch(wild[1..], cs);
      assert ""[0..] == "";
      assert !MatchesFrom(wild[1..], "", 1, cs);
      assert forall i :: 0 < i < |wild| ==> wild[i] == wild[1..][i - 1];
    }
  }

  /** A later start has too little data left for the fixed characters of the attempt. */
  lemma {:induction false} NoLaterStart(wild: string, data: string, from: nat, n: nat, cs: bool)
    requires from + n == |data| && FixedRun(wild, data[from..], n, cs)
    ensures !MatchesFrom(wild, data, from + 1, cs)
  {
    if MatchesFrom(wild, data, from + 1, cs) {
      var k := MatchStart(wild, data, from + 1, cs);
      TooShort(wild, data[k..], n, cs);
    }
  }

  lemma {:induction false} TooShort(wild: string, data: string, n: nat, cs: bool)
    requires |data| < n <= |wild| && forall i :: 0 <= i < n ==> wild[i] != '*'
    ensures !Matches(wild, data, cs)
  {
    if Matches(wild, data, cs) {
      StripFixed(wild, data, n, cs);
      assert false;
    }
  }

  /** At the end of the data the current attempt is the only one left. */
  lemma {:induction false} DataExhausted(wild: string, data: string, from: nat, n: nat, cs: bool)
    requires from + n == |data| && FixedRun(wild, data[from..], n, cs)
    ensures MatchesFrom(wild, data, from, cs) <==> AllStars(wild[n..])
  {
    NoLaterStart(wild, data, from, n, cs);
    FixedPrefix(wild, data[from..], n, cs);
    assert data[from..][n..] == "";
    EmptyMatch(wild[n..], cs);
  }

  lemma {:induction false} StarMatchesAll(wild: string, data: string, from: nat, cs: bool)
    requires |wild| == 0 && from <= |data|
    ensures MatchesFrom(wild, data, from, cs)
  {
    assert data[|data|..] == "";
    MatchesAt(wild, data, from, |data|, cs);
  }

  // ---------------------------------------------------------------------
  // The matcher
  // ---------------------------------------------------------------------

  /** The character at a pointer; the terminator stands at the end. */
  function At(s: string, i: nat): char
    requires i <= |s|
  {
    if i < |s| then s[i] else '\0'
  }

  /** Is the string free of the terminator? */
  predicate Terminated(s: string)
  {
    '\0' !in s
  }

  method Match(wild: string, data: string, caseSensitive: bool) returns (r: int)
    requires Terminated(wild) && Terminated(data)
    ensures r == 0 || r == 1
    ensures r != 0 <==> InLanguage(wild, data, caseSensitive)
  {
    MatchesIsInLanguage(wild, data, caseSensitive);
    ghost var cs := caseSensitive;
    var w, d := 0, 0;
    while At(data, d) != '\0' && At(wild, w) != '*'
      invariant 0 <= w == d <= |data| && w <= |wild|
      invariant FixedRun(wild, data, d, cs)
      decreases |data| - d
    {
      assert data[d] in data && (w < |wild| ==> wild[w] in wild);
      if !Accepts(At(wild, w), At(data, d), caseSensitive) {
        FixedPrefix(wild, data, d, cs);
        assert wild[w..] == "" || wild[w..][0] == wild[w];
        assert data[d..][0] == data[d];
        return 0;
      }
      assert w < |wild|;
      w, d := w + 1, d + 1;
    }
    InData(data, d);
    FixedPrefix(wild, data, d, cs);
    r := MatchRest(wild, w, data, d, caseSensitive);
  }

  /** The attempt since the last star: `mp` follows the star, and the attempt began at `from`. */
  ghost predicate Attempt(wild: string, data: string, mp: nat, from: nat, w: nat, d: nat, cs: bool)
  {
    mp <= w <= |wild| && from <= d <= |data| && d - from == w - mp && FixedRun(wild[mp..], data[from..], w - mp, cs)
  }

  /** What the second loop keeps: the answer is that of the attempts from `from` on. */
  ghost predicate Open(wild: string, data: string, mp: nat, from: nat, w: nat, d: nat, cs: bool, expected: bool)
  {
    mp < |wild| && Attempt(wild, data, mp, from, w, d, cs) &&
    (expected <==> MatchesFrom(wild[mp..], data, from, cs))
  }

  lemma {:induction false} StarBegins(wild: string, data: string, w: nat, d: nat, cs: bool)
    requires w < |wild| && wild[w] == '*' && d <= |data|
    ensures Matches(wild[w..], data[d..], cs) <==> MatchesFrom(wild[w + 1..], data, d, cs)
  {
    assert wild[w..][1..] == wild[w + 1..];
    if MatchesFrom(wild[w + 1..], data, d, cs) {
      var k := MatchStart(wild[w + 1..], data, d, cs);
      assert data[d..][k - d..] == data[k..];
      MatchesAt(wild[w..][1..], data[d..], 0, k - d, cs);
    }
    if Matches(wild[w..], data[d..], cs) {
      var k := MatchStart(wild[w..][1..], data[d..], 0, cs);
      assert data[d..][k..] == data[k + d..];
      MatchesAt(wild[w + 1..], data, d, k + d, cs);
    }
  }

  lemma {:induction false} StarMet(wild: string, data: string, mp: nat, from: nat, w: nat, d: nat, cs: bool, expected: bool)
    requires Open(wild, data, mp, from, w, d, cs, expected) && w < |wild| && wild[w] == '*'
    ensures w + 1 < |wild| ==> Open(wild, data, w + 1, d, w + 1, d, cs, expected)
    ensures w + 1 == |wild| ==> expected
  {
    NextStar(wild[mp..], data, from, w - mp, cs);
    assert wild[mp..][w - mp + 1..] == wild[w + 1..];
    if w + 1 == |wild| {
      StarMatchesAll(wild[w + 1..], data, d, cs);
    }
  }

  lemma {:induction false} CharAccepted(wild: string, data: string, mp: nat, from: nat, w: nat, d: nat, cs: bool, expected: bool)
    requires Open(wild, data, mp, from, w, d, cs, expected) && d < |data| && Terminated(data)
    requires At(wild, w) != '*' && Accepts(At(wild, w), data[d], cs)
    ensures Open(wild, data, mp, from, w + 1, d + 1, cs, expected)
  {
    InData(data, d);
    assert wild[mp..][w - mp] == wild[w] && data[from..][w - mp] == data[d];
  }

  lemma {:induction false} CharRejected(wild: string, data: string, mp: nat, from: nat, w: nat, d: nat, cs: bool, expected: bool)
    requires Open(wild, data, mp, from, w, d, cs, expected) && d < |data|
    requires At(wild, w) != '*' && !Accepts(At(wild, w), data[d], cs)
    ensures Open(wild, data, mp, from + 1, mp, from + 1, cs, expected)
  {
    assert w < |wild| ==> wild[mp..][w - mp] == wild[w];
    AttemptFails(wild[mp..], data, from, w - mp, cs);
  }

  lemma {:induction false} AttemptEnds(wild: string, data: string, mp: nat, from: nat, w: nat, d: nat, cs: bool, expected: bool)
    requires Open(wild, data, mp, from, w, d, cs, expected) && d == |data|
    ensures expected <==> AllStars(wild[w..])
  {
    DataExhausted(wild[mp..], data, from, w - mp, cs);
    assert wild[mp..][w - mp..] == wild[w..];
  }

  lemma {:induction false} InData(data: string, d: nat)
    requires Terminated(data) && d <= |data|
    ensures At(data, d) == '\0' <==> d == |data|
  {
    assert d < |data| ==> data[d] in data;
  }

  /** What the second loop keeps, before its first star (`mp` is still null) and after. */
  ghost predicate Searching(wild: string, data: string, mp: int, cp: int, w: nat, d: nat, cs: bool, expected: bool)
  {
    w <= |wild| && d <= |data| &&
    if mp == -1 then expected <==> Matches(wild[w..], data[d..], cs)
    else mp >= 0 && 0 < cp <= d + 1 && Open(wild, data, mp, cp - 1, w, d, cs, expected)
  }

  /** A star, the first one or a later one, starts a new search. */
  lemma {:induction false} StarTurn(wild: string, data: string, mp: int, cp: int, w: nat, d: nat, cs: bool, expected: bool)
    requires Searching(wild, data, mp, cp, w, d, cs, expected) && w < |wild| && wild[w] == '*'
    ensures w + 1 < |wild| ==> Searching(wild, data, w + 1, d + 1, w + 1, d, cs, expected)
    ensures w + 1 == |wild| ==> expected
  {
    if mp == -1 {
      StarBegins(wild, data, w, d, cs);
      if w + 1 == |wild| {
        StarMatchesAll(wild[w + 1..], data, d, cs);
      }
    } else {
      StarMet(wild, data, mp, cp - 1, w, d, cs, expected);
    }
  }

  lemma {:induction false} SearchEnds(wild: string, data: string, mp: int, cp: int, w: nat, d: nat, cs: bool, expected: bool)
    requires Searching(wild, data, mp, cp, w, d, cs, expected) && d == |data|
    ensures expected <==> AllStars(wild[w..])
  {
    if mp == -1 {
      EmptyMatch(wild[w..], cs);
    } else {
      AttemptEnds(wild, data, mp, cp - 1, w, d, cs, expected);
    }
  }

  /** The matcher after its first loop; -1 stands for a null pointer. */
  method MatchRest(wild: string, w0: nat, data: string, d0: nat, caseSensitive: bool) returns (r: int)
    requires Terminated(wild) && Terminated(data) && w0 <= |wild| && d0 <= |data|
    requires d0 == |data| || At(wild, w0) == '*'
    ensures r == 0 || r == 1
    ensures r != 0 <==> Matches(wild[w0..], data[d0..], caseSensitive)
  {
    ghost var expected := Matches(wild[w0..], data[d0..], caseSensitive);
    var w: nat, d: nat := w0, d0;
    var mp, cp := -1, -1;
    while At(data, d) != '\0'
      invariant -1 <= mp < |wild| && w <= |wild| && d <= |data|
      invariant mp == -1 ==> d == |data| || At(wild, w) == '*'
      invariant Searching(wild, data, mp, cp, w, d, caseSensitive, expected)
      decreases |wild| - mp, |data| + 1 - cp, |data| - d
    {
      InData(data, d);
      if At(wild, w) == '*' {
        StarTurn(wild, data, mp, cp, w, d, caseSensitive, expected);
        w := w + 1;
        if w == |wild| {
          return 1;
        }
        mp, cp := w, d + 1;
      } else if Accepts(At(wild, w), At(data, d), caseSensitive) {
        CharAccepted(wild, data, mp, cp - 1, w, d, caseSensitive, expected);
        w, d := w + 1, d + 1;
      } else {
        CharRejected(wild, data, mp, cp - 1, w, d, caseSensitive, expected);
        w, d, cp := mp, cp, cp + 1;
      }
    }
    InData(data, d);
    SearchEnds(wild, data, mp, cp, w, d, caseSensitive, expected);
    r := SkipStars(wild, w);
  }

  method SkipStars(wild: string, w0: nat) returns (r: int)
    requires Terminated(wild) && w0 <= |wild|
    ensures r == 0 || r == 1
    ensures r != 0 <==> AllStars(wild[w0..])
  {
    var w := w0;
    while At(wild, w) == '*'
      invariant w0 <= w <= |wild|
      invariant forall i :: w0 <= i < w ==> wild[i] == '*'
      decreases |wild| - w
    {
      w := w + 1;
    }
    if w < |wild| {
      assert wild[w] in wild && wild[w0..][w - w0] == wild[w];
    }
    r := if At(wild, w) == '\0' then 1 else 0;
  }
}
