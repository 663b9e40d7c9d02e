/**
 The header stacks of ASBeautifier: which headers and braces enclose the
 current statement, and how an `else` or a closing `while` finds its partner.

 A token stands for a header with its parenthesised condition, a block brace,
 or the semicolon that ends a statement.
 */
module HeaderStack {
  import opened Stacks

  datatype Entry = OpenBrace | If | Else | For | While | Do

  type Keyword = e: Entry | e != OpenBrace witness If

  /** A loop header; `for` stands for every header that completes nothing. */
  type LoopKeyword = e: Entry | e == For || e == While witness For

  datatype Kind = Head(h: Keyword) | Open | Close | Semi

  /** `newLine` marks the first token of a source line. */
  datatype Token = Token(newLine: bool, kind: Kind)

  // ---------------------------------------------------------------------
  // The stack machine
  // ---------------------------------------------------------------------

  /**
   `headers` is `headerStack`; the top of `temps` holds the headers of the
   statement that has just ended, innermost first. `defined` is lost when the
   code pops an empty vector.
   */
  datatype StackState = StackState(headers: seq<Entry>, temps: seq<seq<Entry>>, defined: bool)

  /** Moves `n` headers from a snapshot back to the header stack. */
  function Restack(headers: seq<Entry>, temp: seq<Entry>, n: nat): (seq<Entry>, seq<Entry>)
    requires n <= |temp|
    decreases n
  {
    if n == 0 then (headers, temp) else Restack(headers + [Top(temp)], Pop(temp), n - 1)
  }

  /** Moves the headers above the innermost open brace into a snapshot. */
  function Snapshot(headers: seq<Entry>, temp: seq<Entry>): (seq<Entry>, seq<Entry>)
    decreases |headers|
  {
    if |headers| == 0 || Top(headers) == OpenBrace then (headers, temp)
    else Snapshot(Pop(headers), temp + [Top(headers)])
  }

  /** Removes everything down to the innermost open brace, and the brace. */
  function PopBlock(headers: seq<Entry>): seq<Entry>
    requires OpenBrace in headers
  {
    if Top(headers) == OpenBrace then Pop(headers) else PopBlock(Pop(headers))
  }

  /** The header that `h` completes, if it completes any. */
  function Partner(h: Keyword): Option<Entry>
  {
    match h
    case Else => Some(If)
    case While => Some(Do)
    case _ => None
  }

  /** How many headers are restacked when `h` is met. */
  function RestackSize(k: StackState, h: Keyword): (n: nat)
    ensures n > 0 ==> |k.temps| > 0 && n <= |Top(k.temps)|
  {
    if Partner(h).None? || |k.temps| == 0 then 0
    else
      var at := IndexOf(Top(k.temps), Partner(h).value);
      if at == -1 then 0 else |Top(k.temps)| - at - 1
  }

  function MeetHeader(k: StackState, lastLineHeader: Option<Entry>, h: Keyword): StackState
  {
    if h == If && lastLineHeader == Some(Else) then
      if |k.headers| == 0 then k.(defined := false) else k.(headers := Pop(k.headers) + [h])
    else
      var n := RestackSize(k, h);
      if n == 0 then k.(headers := k.headers + [h])
      else
        var (headers, temp) := Restack(k.headers, Top(k.temps), n);
        k.(headers := headers + [h], temps := Pop(k.temps) + [temp])
  }

  function EndStatement(k: StackState): StackState
  {
    if |k.temps| == 0 then k.(defined := false)
    else
      var (headers, temp) := Snapshot(k.headers, []);
      k.(headers := headers, temps := Pop(k.temps) + [temp])
  }

  function CloseBlock(k: StackState): StackState
  {
    if OpenBrace in k.headers then
      EndStatement(k.(headers := PopBlock(k.headers),
                      temps := if |k.temps| == 0 then k.temps else Pop(k.temps)))
    else EndStatement(k)
  }

  function StackStep(k: StackState, lastLineHeader: Option<Entry>, kind: Kind): StackState
  {
    if !k.defined then k
    else
      match kind
      case Head(h) => MeetHeader(k, lastLineHeader, h)
      case Open => k.(headers := k.headers + [OpenBrace], temps := k.temps + [[]])
      case Close => CloseBlock(k)
      case Semi => EndStatement(k)
  }

  /** `lastLineHeader` as it stands when `t` is met. */
  function LineHeader(last: Option<Entry>, t: Token): Option<Entry>
  {
    if t.newLine then None else last
  }

  /** `lastLineHeader` after `t`. A semicolon or closing brace leaves it alone. */
  function NextLineHeader(last: Option<Entry>, t: Token): Option<Entry>
  {
    match t.kind
    case Head(h) => Some(h)
    case Open => Some(OpenBrace)
    case _ => LineHeader(last, t)
  }

  function LineHeaderAfter(last: Option<Entry>, toks: seq<Token>): Option<Entry>
    decreases |toks|
  {
    if |toks| == 0 then last else LineHeaderAfter(NextLineHeader(last, toks[0]), toks[1..])
  }

  function Run(k: StackState, last: Option<Entry>, toks: seq<Token>): StackState
    decreases |toks|
  {
    if |toks| == 0 then k
    else Run(StackStep(k, LineHeader(last, toks[0]), toks[0].kind), NextLineHeader(last, toks[0]), toks[1..])
  }

  function Observe(k: StackState): Option<seq<Entry>>
  {
    if k.defined then Some(k.headers) else None
  }

  /** The header stack after each token. */
  function Trace(k: StackState, last: Option<Entry>, toks: seq<Token>): (r: seq<Option<seq<Entry>>>)
    ensures |r| == |toks|
    decreases |toks|
  {
    if |toks| == 0 then []
    else
      var next := StackStep(k, LineHeader(last, toks[0]), toks[0].kind);
      [Observe(next)] + Trace(next, NextLineHeader(last, toks[0]), toks[1..])
  }

  const INITIAL := StackState([], [[]], true)

  /**
   No `if` is met while `lastLineHeader` still holds an `else` that is not the
   token just before it: on one line, `else x; if (y)` breaks this.
   */
  predicate NoStaleElse(last: Option<Entry>, afterElse: bool, toks: seq<Token>)
    decreases |toks|
  {
    |toks| == 0 ||
    (!(toks[0].kind == Head(If) && LineHeader(last, toks[0]) == Some(Else) && !afterElse) &&
     NoStaleElse(NextLineHeader(last, toks[0]), toks[0].kind == Head(Else), toks[1..]))
  }

  /**
   The same by the places of the tokens alone: an `else` at `j` and an `if` at `i` on its
   line, with statements or blocks ending between them and nothing else.
   */
  predicate StaleElse(toks: seq<Token>, j: nat, i: nat)
  {
    j + 1 < i < |toks| && toks[j].kind == Head(Else) && toks[i].kind == Head(If) &&
    (forall k :: j < k <= i ==> !toks[k].newLine) &&
    (forall k :: j < k < i ==> toks[k].kind == Semi || toks[k].kind == Close)
  }

  ghost predicate ElsesAreFresh(toks: seq<Token>)
  {
    forall j: nat, i: nat :: !StaleElse(toks, j, i)
  }

  /** The line of the token before place `p` still holds the `else` at `j`. */
  predicate Lasts(toks: seq<Token>, j: nat, p: nat)
  {
    j < p <= |toks| && toks[j].kind == Head(Else) &&
    forall k :: j < k < p ==> !toks[k].newLine && (toks[k].kind == Semi || toks[k].kind == Close)
  }

  lemma {:induction false} LastHeaderIs(toks: seq<Token>, p: nat)
    requires p <= |toks|
    ensures LineHeaderAfter(None, toks[..p]) == Some(Else) <==> exists j: nat :: Lasts(toks, j, p)
    decreases p
  {
    if p > 0 {
      LastHeaderIs(toks, p - 1);
      HeaderAfterOne(None, toks, p - 1);
      var t := toks[p - 1];
      if t.kind == Head(Else) {
        assert Lasts(toks, p - 1, p);
      } else if !t.newLine && (t.kind == Semi || t.kind == Close) {
        var q := p - 1;
        if j: nat :| Lasts(toks, j, q) {
          assert Lasts(toks, j, p);
        }
        if j: nat :| Lasts(toks, j, p) {
          assert Lasts(toks, j, q);
        }
      }
    }
  }

  lemma {:induction false} HeaderAfterOne(last: Option<Entry>, toks: seq<Token>, p: nat)
    requires p < |toks|
    ensures LineHeaderAfter(last, toks[..p + 1]) == NextLineHeader(LineHeaderAfter(last, toks[..p]), toks[p])
    decreases p
  {
    if p > 0 {
      HeaderAfterOne(NextLineHeader(last, toks[0]), toks[1..], p - 1);
      assert toks[..p + 1][1..] == toks[1..][..p] && toks[..p][1..] == toks[1..][..p - 1];
    } else {
      assert toks[..1][1..] == [];
    }
  }

  lemma {:induction false} FreshFrom(toks: seq<Token>, p: nat)
    requires p <= |toks|
    ensures NoStaleElse(LineHeaderAfter(None, toks[..p]), p > 0 && toks[p - 1].kind == Head(Else), toks[p..])
            <==> forall j: nat, i: nat :: p <= i ==> !StaleElse(toks, j, i)
    decreases |toks| - p
  {
    if p < |toks| {
      FreshFrom(toks, p + 1);
      LastHeaderIs(toks, p);
      HeaderAfterOne(None, toks, p);
      assert toks[p..][0] == toks[p] && toks[p..][1..] == toks[p + 1..];
      var last := LineHeaderAfter(None, toks[..p]);
      var stale := toks[p].kind == Head(If) && LineHeader(last, toks[p]) == Some(Else) && !(p > 0 && toks[p - 1].kind == Head(Else));
      if stale {
        var j: nat :| Lasts(toks, j, p);
        assert StaleElse(toks, j, p);
      } else {
        forall j: nat ensures !StaleElse(toks, j, p) {
          if StaleElse(toks, j, p) {
            assert Lasts(toks, j, p);
            assert false;
          }
        }
      }
    }
  }

  /** What the machine remembers of a line is what the places say. */
  lemma {:induction false} StaleByPlace(toks: seq<Token>)
    ensures NoStaleElse(None, false, toks) <==> ElsesAreFresh(toks)
  {
    FreshFrom(toks, 0);
    assert toks[..0] == [] && toks[0..] == toks;
  }

  // ---------------------------------------------------------------------
  // The syntax tree
  // ---------------------------------------------------------------------

  /** Structured statements; each boolean says whether its token starts a line. */
  datatype Stmt =
    | Simple(nl: bool)
    | Block(nl: bool, body: seq<Stmt>, nlClose: bool)
    | Loop(nl: bool, h: LoopKeyword, loopBody: Stmt)
    | IfThen(nl: bool, thn: Stmt)
    | IfElse(nl: bool, thn: Stmt, nlElse: bool, els: Stmt)
    | DoWhile(nl: bool, doBody: Stmt, nlWhile: bool)

  predicate StartsWithIf(s: Stmt)
  {
    s.IfThen? || s.IfElse?
  }

  /** `else if` on one line: the nested `if` takes the place of the `else`. */
  predicate Collapsed(els: Stmt)
  {
    StartsWithIf(els) && !els.nl
  }

  /** The statement ends in an `if` that an `else` would attach to. */
  predicate EndsInOpenIf(s: Stmt)
  {
    match s
    case IfThen(_, _) => true
    case IfElse(_, _, _, els) => EndsInOpenIf(els)
    case Loop(_, _, body) => EndsInOpenIf(body)
    case _ => false
  }

  /** The trees that the C grammar gives: an `else` belongs to the nearest free `if`. */
  predicate WellFormed(s: Stmt)
  {
    match s
    case Simple(_) => true
    case Block(_, body, _) => forall b :: b in body ==> WellFormed(b)
    case Loop(_, _, body) => WellFormed(body)
    case IfThen(_, thn) => WellFormed(thn)
    case IfElse(_, thn, _, els) => WellFormed(thn) && WellFormed(els) && !EndsInOpenIf(thn)
    case DoWhile(_, body, _) => WellFormed(body)
  }

  /** A token with what the tree says about it: the path after it and the depth of its line. */
  datatype Note = Note(tok: Token, path: seq<Entry>, depth: nat)

  /** The path of the block around a statement. */
  function BlockPath(path: seq<Entry>): (r: seq<Entry>)
    ensures |r| <= |path|
  {
    if |path| == 0 || Top(path) == OpenBrace then path else BlockPath(Pop(path))
  }

  /** The headers between the enclosing brace and the statement, outermost first. */
  function Chain(path: seq<Entry>): seq<Entry>
  {
    path[|BlockPath(path)|..]
  }

  /** The body of a header is one deeper, but its brace stands at the header's own depth. */
  function BodyDepth(body: Stmt, depth: nat): nat
  {
    if body.Block? then depth else depth + 1
  }

  /** The annotated tokens of a statement at `path`. */
  function Annotate(s: Stmt, path: seq<Entry>, depth: nat): (r: seq<Note>)
    ensures |r| > 0 && !Top(r).tok.kind.Head?
    decreases s, 1
  {
    match s
    case Simple(nl) => [Note(Token(nl, Semi), BlockPath(path), depth)]
    case Block(nl, body, nlClose) =>
      [Note(Token(nl, Open), path + [OpenBrace], depth)]
      + (AnnotateAll(body, path + [OpenBrace], depth + 1)
         + [Note(Token(nlClose, Close), BlockPath(path), depth)])
    case Loop(nl, h, body) =>
      [Note(Token(nl, Head(h)), path + [h], depth)] + Annotate(body, path + [h], BodyDepth(body, depth))
    case IfThen(nl, _) =>
      [Note(Token(nl, Head(If)), path + [If], depth)] + AnnotateRest(s, path, depth)
    case IfElse(nl, _, _, _) =>
      [Note(Token(nl, Head(If)), path + [If], depth)] + AnnotateRest(s, path, depth)
    case DoWhile(nl, body, nlWhile) =>
      [Note(Token(nl, Head(Do)), path + [Do], depth)]
      + (Annotate(body, path + [Do], BodyDepth(body, depth)) + AnnotateWhile(nlWhile, path, depth))
  }

  /** An `if` statement after its first token. */
  function AnnotateRest(s: Stmt, path: seq<Entry>, depth: nat): (r: seq<Note>)
    requires StartsWithIf(s)
    ensures |r| > 0 && !Top(r).tok.kind.Head?
    decreases s, 0
  {
    if s.IfThen? then Annotate(s.thn, path + [If], BodyDepth(s.thn, depth))
    else
      Annotate(s.thn, path + [If], BodyDepth(s.thn, depth))
      + ([Note(Token(s.nlElse, Head(Else)), path + [Else], depth)] + AnnotateElsePart(s.els, path, depth))
  }

  /** The `while` that closes a `do`, and its semicolon. */
  function AnnotateWhile(nlWhile: bool, path: seq<Entry>, depth: nat): (r: seq<Note>)
    ensures |r| == 2 && r[1].tok.kind == Semi && r[1].path == BlockPath(path)
  {
    [Note(Token(nlWhile, Head(While)), path + [While], depth)] + [Note(Token(false, Semi), BlockPath(path), depth + 1)]
  }

  function AnnotateElsePart(els: Stmt, path: seq<Entry>, depth: nat): (r: seq<Note>)
    ensures |r| > 0 && !Top(r).tok.kind.Head?
    decreases els, 2
  {
    if Collapsed(els)
    then [Note(Token(false, Head(If)), path + [If], depth)] + AnnotateRest(els, path, depth)
    else Annotate(els, path + [Else], BodyDepth(els, depth))
  }

  function AnnotateAll(ss: seq<Stmt>, path: seq<Entry>, depth: nat): seq<Note>
    decreases ss, 2
  {
    if |ss| == 0 then [] else Annotate(ss[0], path, depth) + AnnotateAll(ss[1..], path, depth)
  }

  function Tokens(notes: seq<Note>): (r: seq<Token>)
    ensures |r| == |notes|
  {
    seq(|notes|, i requires 0 <= i < |notes| => notes[i].tok)
  }

  function Paths(notes: seq<Note>): (r: seq<Option<seq<Entry>>>)
    ensures |r| == |notes|
  {
    seq(|notes|, i requires 0 <= i < |notes| => Some(notes[i].path))
  }

  /** The headers that are still pending when the statement has ended. */
  function Tail(s: Stmt): (r: seq<Entry>)
    ensures Do !in r && OpenBrace !in r
  {
    match s
    case Simple(_) => []
    case Block(_, _, _) => []
    case Loop(_, h, body) => [h] + Tail(body)
    case IfThen(_, thn) => [If] + Tail(thn)
    case IfElse(_, _, _, els) => if Collapsed(els) then Tail(els) else [Else] + Tail(els)
    case DoWhile(_, _, _) => [While]
  }

  lemma {:induction false} TailHoldsOpenIf(s: Stmt)
    requires WellFormed(s)
    ensures If in Tail(s) <==> EndsInOpenIf(s)
  {
    match s
    case Loop(_, _, body) => TailHoldsOpenIf(body);
    case IfThen(_, _) => assert Tail(s)[0] == If;
    case IfElse(_, _, _, els) => TailHoldsOpenIf(els);
    case _ =>
  }

  // ---------------------------------------------------------------------
  // Running a concatenation
  // ---------------------------------------------------------------------

  lemma {:induction false} RunConcat(k: StackState, last: Option<Entry>, a: seq<Token>, b: seq<Token>)
    ensures LineHeaderAfter(last, a + b) == LineHeaderAfter(LineHeaderAfter(last, a), b)
    ensures Run(k, last, a + b) == Run(Run(k, last, a), LineHeaderAfter(last, a), b)
    ensures Trace(k, last, a + b) == Trace(k, last, a) + Trace(Run(k, last, a), LineHeaderAfter(last, a), b)
    decreases |a|
  {
    if |a| == 0 {
      assert a + b == b;
    } else {
      assert (a + b)[1..] == a[1..] + b;
      RunConcat(StackStep(k, LineHeader(last, a[0]), a[0].kind), NextLineHeader(last, a[0]), a[1..], b);
    }
  }

  function EndsWithElse(afterElse: bool, toks: seq<Token>): bool
  {
    if |toks| == 0 then afterElse else Top(toks).kind == Head(Else)
  }

  lemma {:induction false} StaleConcat(last: Option<Entry>, afterElse: bool, a: seq<Token>, b: seq<Token>)
    ensures NoStaleElse(last, afterElse, a + b) <==>
            NoStaleElse(last, afterElse, a) && NoStaleElse(LineHeaderAfter(last, a), EndsWithElse(afterElse, a), b)
    decreases |a|
  {
    if |a| == 0 {
      assert a + b == b;
    } else {
      assert (a + b)[1..] == a[1..] + b;
      StaleConcat(NextLineHeader(last, a[0]), a[0].kind == Head(Else), a[1..], b);
    }
  }

  lemma {:induction false} TokensConcat(a: seq<Note>, b: seq<Note>)
    ensures Tokens(a + b) == Tokens(a) + Tokens(b)
    ensures Paths(a + b) == Paths(a) + Paths(b)
  {
  }

  // ---------------------------------------------------------------------
  // What the stack operations do to a path
  // ---------------------------------------------------------------------

  lemma {:induction false} RestackMoves(headers: seq<Entry>, temp: seq<Entry>, n: nat)
    requires n <= |temp|
    ensures Restack(headers, temp, n) == (headers + Reverse(temp[|temp| - n..]), temp[..|temp| - n])
    decreases n
  {
    var moved := temp[|temp| - n..];
    if n == 0 {
      assert headers + Reverse(moved) == headers;
      assert temp[..|temp|] == temp;
    } else {
      RestackMoves(headers + [Top(temp)], Pop(temp), n - 1);
      assert Pop(temp)[|temp| - n..] == Pop(moved);
      assert headers + [Top(temp)] + Reverse(Pop(moved)) == headers + Reverse(moved);
      assert Pop(temp)[..|temp| - n] == temp[..|temp| - n];
    }
  }

  lemma {:induction false} SnapshotMoves(headers: seq<Entry>, temp: seq<Entry>)
    ensures Snapshot(headers, temp) == (BlockPath(headers), temp + Reverse(Chain(headers)))
    decreases |headers|
  {
    if |headers| == 0 || Top(headers) == OpenBrace {
      assert temp + Reverse(Chain(headers)) == temp;
    } else {
      SnapshotMoves(Pop(headers), temp + [Top(headers)]);
      assert Pop(Chain(headers)) == Chain(Pop(headers));
      assert temp + [Top(headers)] + Reverse(Chain(Pop(headers))) == temp + Reverse(Chain(headers));
    }
  }

  lemma {:induction false} BlockPathShape(path: seq<Entry>)
    ensures BlockPath(path) + Chain(path) == path && OpenBrace !in Chain(path)
    ensures BlockPath(BlockPath(path)) == BlockPath(path) && Chain(BlockPath(path)) == []
  {
    if |path| > 0 && Top(path) != OpenBrace {
      BlockPathShape(Pop(path));
      assert Chain(path) == Chain(Pop(path)) + [Top(path)];
    }
  }

  lemma {:induction false} BlockPathExtend(path: seq<Entry>, more: seq<Entry>)
    requires OpenBrace !in more
    ensures BlockPath(path + more) == BlockPath(path)
    ensures Chain(path + more) == Chain(path) + more
    decreases |more|
  {
    if |more| == 0 {
      assert path + more == path;
    } else {
      assert Pop(path + more) == path + Pop(more);
      BlockPathExtend(path, Pop(more));
      assert (path + more)[|BlockPath(path)|..] == path[|BlockPath(path)|..] + more;
    }
  }

  lemma {:induction false} EndStatementMoves(k: StackState)
    requires |k.temps| > 0
    ensures EndStatement(k) == k.(headers := BlockPath(k.headers), temps := Pop(k.temps) + [Reverse(Chain(k.headers))])
  {
    SnapshotMoves(k.headers, []);
    assert [] + Reverse(Chain(k.headers)) == Reverse(Chain(k.headers));
  }

  /** In a snapshot the partner comes after what its body has left pending. */
  lemma {:induction false} PartnerFound(chain: seq<Entry>, partner: Entry, tail: seq<Entry>)
    requires partner !in tail
    ensures IndexOf(Reverse(chain + [partner] + tail), partner) == |tail|
  {
    ReverseAround(chain, partner, tail);
    ReverseMember(tail, partner);
    IndexOfFirst(Reverse(tail), partner, Reverse(chain));
  }

  lemma {:induction false} PartnerSplits(chain: seq<Entry>, partner: Entry, tail: seq<Entry>)
    ensures Reverse(chain + [partner] + tail)[..|tail| + 1] == Reverse([partner] + tail)
    ensures Reverse(chain + [partner] + tail)[|tail| + 1..] == Reverse(chain)
  {
    assert chain + [partner] + tail == chain + ([partner] + tail);
    ReverseConcat(chain, [partner] + tail);
  }

  /** A restacking header puts back exactly the headers outside its partner. */
  lemma {:induction false} MeetPartner(k: StackState, last: Option<Entry>, h: Keyword, chain: seq<Entry>, tail: seq<Entry>)
    requires Partner(h).Some? && Partner(h).value !in tail
    requires |k.temps| > 0 && Top(k.temps) == Reverse(chain + [Partner(h).value] + tail)
    ensures RestackSize(k, h) == |chain|
    ensures MeetHeader(k, last, h)
            == k.(headers := k.headers + chain + [h], temps := Pop(k.temps) + [Reverse([Partner(h).value] + tail)])
  {
    var p := Partner(h).value;
    PartnerFound(chain, p, tail);
    assert RestackSize(k, h) == |chain|;
    PartnerRestacked(k.headers, chain, p, tail);
    if |chain| == 0 {
      assert Pop(k.temps) + [Top(k.temps)] == k.temps;
      assert k.headers + chain == k.headers;
      assert chain + [p] + tail == [p] + tail;
    }
  }

  lemma {:induction false} PartnerRestacked(headers: seq<Entry>, chain: seq<Entry>, partner: Entry, tail: seq<Entry>)
    ensures Restack(headers, Reverse(chain + [partner] + tail), |chain|) == (headers + chain, Reverse([partner] + tail))
  {
    var temp := Reverse(chain + [partner] + tail);
    PartnerSplits(chain, partner, tail);
    RestackMoves(headers, temp, |chain|);
    assert |temp| - |chain| == |tail| + 1;
    ReverseTwice(chain);
  }

  // ---------------------------------------------------------------------
  // The machine follows the tree
  // ---------------------------------------------------------------------

  /**
   From `k` the machine shows the paths of `notes` exactly when no stale `else`
   is met, and then ends in `k'`.
   */
  ghost predicate Follows(k: StackState, last: Option<Entry>, afterElse: bool, notes: seq<Note>, k': StackState)
  {
    var toks := Tokens(notes);
    (Trace(k, last, toks) == Paths(notes) <==> NoStaleElse(last, afterElse, toks)) &&
    (NoStaleElse(last, afterElse, toks) ==> Run(k, last, toks) == k')
  }

  lemma {:induction false} FollowsConcat(k: StackState, last: Option<Entry>, afterElse: bool, a: seq<Note>, k1: StackState,
                      b: seq<Note>, k2: StackState)
    requires Follows(k, last, afterElse, a, k1)
    requires Follows(k1, LineHeaderAfter(last, Tokens(a)), EndsWithElse(afterElse, Tokens(a)), b, k2)
    ensures Follows(k, last, afterElse, a + b, k2)
  {
    var ta, tb := Tokens(a), Tokens(b);
    TokensConcat(a, b);
    RunConcat(k, last, ta, tb);
    StaleConcat(last, afterElse, ta, tb);
    var whole := Trace(k, last, ta + tb);
    assert whole[..|ta|] == Trace(k, last, ta);
    assert Paths(a + b)[..|ta|] == Paths(a);
    assert whole[|ta|..] == Trace(Run(k, last, ta), LineHeaderAfter(last, ta), tb);
    assert Paths(a + b)[|ta|..] == Paths(b);
  }

  lemma {:induction false} FollowsToken(k: StackState, last: Option<Entry>, afterElse: bool, n: Note)
    requires k.defined
    requires n.tok.kind == Head(If) ==> (n.tok.newLine || !afterElse) && n.path == k.headers + [If]
    requires n.tok.kind != Head(If) ==>
               Observe(StackStep(k, LineHeader(last, n.tok), n.tok.kind)) == Some(n.path)
    ensures Follows(k, last, afterElse, [n],
                    if n.tok.kind == Head(If) then k.(headers := n.path)
                    else StackStep(k, LineHeader(last, n.tok), n.tok.kind))
    ensures LineHeaderAfter(last, Tokens([n])) == NextLineHeader(last, n.tok)
    ensures EndsWithElse(afterElse, Tokens([n])) == (n.tok.kind == Head(Else))
  {
    var toks := Tokens([n]);
    assert toks == [n.tok] && toks[1..] == [];
    var next := StackStep(k, LineHeader(last, n.tok), n.tok.kind);
    var rest := NextLineHeader(last, n.tok);
    assert Trace(next, rest, []) == [] && Run(next, rest, []) == next;
    assert Trace(k, last, toks) == [Observe(next)];
    assert Paths([n]) == [Some(n.path)];
    assert NoStaleElse(rest, n.tok.kind == Head(Else), []);
    if n.tok.kind == Head(If) && LineHeader(last, n.tok) == Some(Else) {
      assert next.defined ==> |next.headers| == |k.headers|;
      assert |n.path| == |k.headers| + 1;
      assert Observe(next) != Some(n.path);
      assert [Observe(next)][0] != [Some(n.path)][0];
    }
  }

  /** The state the tree predicts after `s`, which stood at `path`. */
  function After(path: seq<Entry>, temps: seq<seq<Entry>>, s: Stmt): StackState
    requires |temps| > 0
  {
    StackState(BlockPath(path), Pop(temps) + [Reverse(Chain(path) + Tail(s))], true)
  }

  /** A header's own entry joins what its body leaves pending. */
  lemma {:induction false} AfterBody(path: seq<Entry>, temps: seq<seq<Entry>>, h: Entry, body: Stmt, s: Stmt)
    requires |temps| > 0 && h != OpenBrace && Tail(s) == [h] + Tail(body)
    ensures After(path + [h], temps, body) == After(path, temps, s)
  {
    BlockPathExtend(path, [h]);
    assert Chain(path) + [h] + Tail(body) == Chain(path) + Tail(s);
  }

  function AfterAll(k: StackState, ss: seq<Stmt>): (r: StackState)
    requires |k.temps| > 0
    ensures |r.temps| == |k.temps| && Pop(r.temps) == Pop(k.temps)
    decreases |ss|
  {
    if |ss| == 0 then k else AfterAll(After(k.headers, k.temps, ss[0]), ss[1..])
  }

  ghost predicate Ready(k: StackState)
  {
    k.defined && |k.temps| > 0 && Do !in Top(k.temps)
  }

  lemma {:induction false} EmptyFollows(k: StackState, last: Option<Entry>, afterElse: bool)
    ensures Follows(k, last, afterElse, [], k)
  {
    assert Tokens([]) == [];
  }

  lemma {:induction false} FollowsStmt(s: Stmt, k: StackState, last: Option<Entry>, afterElse: bool, depth: nat)
    requires WellFormed(s) && Ready(k)
    requires StartsWithIf(s) ==> s.nl || !afterElse
    ensures Follows(k, last, afterElse, Annotate(s, k.headers, depth), After(k.headers, k.temps, s))
    decreases s, 3
  {
    match s
    case Simple(nl) => FollowsSimple(s, k, last, afterElse, depth);
    case Block(_, _, _) => FollowsBlock(s, k, last, afterElse, depth);
    case Loop(_, _, _) => FollowsLoop(s, k, last, afterElse, depth);
    case DoWhile(_, _, _) => FollowsDoWhile(s, k, last, afterElse, depth);
    case _ =>
      var n := Note(Token(s.nl, Head(If)), k.headers + [If], depth);
      FollowsToken(k, last, afterElse, n);
      FollowsRest(s, k.headers, k.temps, depth);
      FollowsConcat(k, last, afterElse, [n], k.(headers := n.path), AnnotateRest(s, k.headers, depth),
                    After(k.headers, k.temps, s));
  }

  lemma {:induction false} FollowsSimple(s: Stmt, k: StackState, last: Option<Entry>, afterElse: bool, depth: nat)
    requires s.Simple? && Ready(k)
    ensures Follows(k, last, afterElse, Annotate(s, k.headers, depth), After(k.headers, k.temps, s))
  {
    EndStatementMoves(k);
    assert Chain(k.headers) + [] == Chain(k.headers);
    FollowsToken(k, last, afterElse, Note(Token(s.nl, Semi), BlockPath(k.headers), depth));
  }

  lemma {:induction false} FollowsLoop(s: Stmt, k: StackState, last: Option<Entry>, afterElse: bool, depth: nat)
    requires WellFormed(s) && Ready(k) && s.Loop?
    ensures Follows(k, last, afterElse, Annotate(s, k.headers, depth), After(k.headers, k.temps, s))
    decreases s, 2
  {
    var n := Note(Token(s.nl, Head(s.h)), k.headers + [s.h], depth);
    var k1 := k.(headers := n.path);
    assert RestackSize(k, s.h) == 0;
    FollowsToken(k, last, afterElse, n);
    FollowsStmt(s.loopBody, k1, Some(s.h), false, BodyDepth(s.loopBody, depth));
    AfterBody(k.headers, k.temps, s.h, s.loopBody, s);
    FollowsConcat(k, last, afterElse, [n], k1, Annotate(s.loopBody, n.path, BodyDepth(s.loopBody, depth)),
                  After(k.headers, k.temps, s));
  }

  lemma {:induction false} FollowsBlock(s: Stmt, k: StackState, last: Option<Entry>, afterElse: bool, depth: nat)
    requires WellFormed(s) && Ready(k) && s.Block?
    ensures Follows(k, last, afterElse, Annotate(s, k.headers, depth), After(k.headers, k.temps, s))
    decreases s, 2
  {
    var open := Note(Token(s.nl, Open), k.headers + [OpenBrace], depth);
    var inner := Note(Token(s.nlClose, Close), BlockPath(k.headers), depth);
    var body := AnnotateAll(s.body, open.path, depth + 1);
    var k1 := StackState(open.path, k.temps + [[]], true);
    var k2 := AfterAll(k1, s.body);
    var k3 := After(k.headers, k.temps, s);
    FollowsToken(k, last, afterElse, open);
    FollowsAll(s.body, k1, Some(OpenBrace), depth + 1);
    CloseMoves(k, k2);
    FollowsToken(k2, LineHeaderAfter(Some(OpenBrace), Tokens(body)), EndsWithElse(false, Tokens(body)), inner);
    FollowsConcat(k1, Some(OpenBrace), false, body, k2, [inner], k3);
    FollowsConcat(k, last, afterElse, [open], k1, body + [inner], k3);
  }

  lemma {:induction false} CloseMoves(k: StackState, k2: StackState)
    requires |k.temps| > 0 && k2.defined
    requires k2.headers == k.headers + [OpenBrace] && |k2.temps| > 0 && Pop(k2.temps) == k.temps
    ensures CloseBlock(k2)
            == StackState(BlockPath(k.headers), Pop(k.temps) + [Reverse(Chain(k.headers) + [])], true)
  {
    assert Top(k2.headers) == OpenBrace && Pop(k2.headers) == k.headers;
    assert PopBlock(k2.headers) == k.headers;
    EndStatementMoves(k2.(headers := k.headers, temps := k.temps));
    assert Chain(k.headers) + [] == Chain(k.headers);
  }

  lemma {:induction false} FollowsAll(ss: seq<Stmt>, k: StackState, last: Option<Entry>, depth: nat)
    requires Ready(k) && BlockPath(k.headers) == k.headers
    requires forall s :: s in ss ==> WellFormed(s)
    ensures Follows(k, last, false, AnnotateAll(ss, k.headers, depth), AfterAll(k, ss))
    ensures AfterAll(k, ss).headers == k.headers && AfterAll(k, ss).defined
    decreases ss, 4
  {
    if |ss| == 0 {
      EmptyFollows(k, last, false);
    } else {
      var a := Annotate(ss[0], k.headers, depth);
      var k1 := After(k.headers, k.temps, ss[0]);
      FollowsStmt(ss[0], k, last, false, depth);
      assert Chain(k.headers) + Tail(ss[0]) == Tail(ss[0]);
      ReverseMember(Tail(ss[0]), Do);
      FollowsAll(ss[1..], k1, LineHeaderAfter(last, Tokens(a)), depth);
      assert !EndsWithElse(false, Tokens(a));
      FollowsConcat(k, last, false, a, k1, AnnotateAll(ss[1..], k.headers, depth), AfterAll(k, ss));
    }
  }

  lemma {:induction false} FollowsDoWhile(s: Stmt, k: StackState, last: Option<Entry>, afterElse: bool, depth: nat)
    requires WellFormed(s) && Ready(k) && s.DoWhile?
    ensures Follows(k, last, afterElse, Annotate(s, k.headers, depth), After(k.headers, k.temps, s))
    decreases s, 2
  {
    var path := k.headers;
    var n := Note(Token(s.nl, Head(Do)), path + [Do], depth);
    var k1 := k.(headers := n.path);
    var body := Annotate(s.doBody, n.path, BodyDepth(s.doBody, depth));
    var k2 := After(n.path, k.temps, s.doBody);
    FollowsToken(k, last, afterElse, n);
    FollowsStmt(s.doBody, k1, Some(Do), false, BodyDepth(s.doBody, depth));
    var k3 := After(path, k.temps, s);
    var w := AnnotateWhile(s.nlWhile, path, depth);
    FollowsWhile(path, k.temps, Tail(s.doBody), LineHeaderAfter(Some(Do), Tokens(body)),
                 EndsWithElse(false, Tokens(body)), s.nlWhile, depth);
    FollowsConcat(k1, Some(Do), false, body, k2, w, k3);
    FollowsConcat(k, last, afterElse, [n], k1, body + w, k3);
  }

  /** The `while` that closes a `do`, and its semicolon. */
  lemma {:induction false} FollowsWhile(path: seq<Entry>, temps: seq<seq<Entry>>, tail: seq<Entry>,
                     last: Option<Entry>, afterElse: bool, nlWhile: bool, depth: nat)
    requires |temps| > 0 && Do !in tail && OpenBrace !in tail
    ensures Follows(StackState(BlockPath(path + [Do]), Pop(temps) + [Reverse(Chain(path + [Do]) + tail)], true),
                    last, afterElse, AnnotateWhile(nlWhile, path, depth),
                    StackState(BlockPath(path), Pop(temps) + [Reverse(Chain(path) + [While])], true))
  {
    var w := Note(Token(nlWhile, Head(While)), path + [While], depth);
    var e := Note(Token(false, Semi), BlockPath(path), depth + 1);
    BlockPathExtend(path, [Do]);
    BlockPathShape(path);
    var k := StackState(BlockPath(path), Pop(temps) + [Reverse(Chain(path) + [Do] + tail)], true);
    var k1 := StackState(path + [While], Pop(temps) + [Reverse([Do] + tail)], true);
    MeetPartner(k, LineHeader(last, w.tok), While, Chain(path), tail);
    FollowsToken(k, last, afterElse, w);
    FollowsWhileEnd(path, k1, e);
    FollowsConcat(k, last, afterElse, [w], k1, [e],
                  StackState(BlockPath(path), Pop(temps) + [Reverse(Chain(path) + [While])], true));
  }

  lemma {:induction false} FollowsWhileEnd(path: seq<Entry>, k: StackState, e: Note)
    requires k.defined && k.headers == path + [While] && |k.temps| > 0
    requires e.tok.kind == Semi && e.path == BlockPath(path)
    ensures Follows(k, Some(While), false, [e],
                    StackState(BlockPath(path), Pop(k.temps) + [Reverse(Chain(path) + [While])], true))
  {
    BlockPathExtend(path, [While]);
    EndStatementMoves(k);
    FollowsToken(k, Some(While), false, e);
  }

  /** An `if` on the line of its `else` takes the place of the `else`. */
  lemma {:induction false} FollowsCollapsedIf(path: seq<Entry>, temps: seq<seq<Entry>>, n: Note)
    requires n.tok == Token(false, Head(If)) && n.path == path + [If]
    ensures Follows(StackState(path + [Else], temps, true), Some(Else), true, [n], StackState(path + [If], temps, true))
    ensures LineHeaderAfter(Some(Else), Tokens([n])) == Some(If) && !EndsWithElse(true, Tokens([n]))
  {
    var k, next := StackState(path + [Else], temps, true), StackState(path + [If], temps, true);
    var toks := Tokens([n]);
    assert toks == [n.tok] && toks[1..] == [];
    assert Pop(path + [Else]) == path;
    assert StackStep(k, Some(Else), Head(If)) == next;
    assert Trace(next, Some(If), []) == [] && Run(next, Some(If), []) == next;
    assert Trace(k, Some(Else), toks) == [Observe(next)];
    assert Paths([n]) == [Some(n.path)];
    assert NoStaleElse(Some(If), false, []);
  }

  /** The `else` of an `if` whose then-part has ended. */
  lemma {:induction false} FollowsElse(path: seq<Entry>, temps: seq<seq<Entry>>, tail: seq<Entry>, last: Option<Entry>, n: Note)
    requires |temps| > 0 && If !in tail && OpenBrace !in tail
    requires n.tok.kind == Head(Else) && n.path == path + [Else]
    ensures Follows(StackState(BlockPath(path + [If]), Pop(temps) + [Reverse(Chain(path + [If]) + tail)], true),
                    last, false, [n], StackState(path + [Else], Pop(temps) + [Reverse([If] + tail)], true))
    ensures LineHeaderAfter(last, Tokens([n])) == Some(Else) && EndsWithElse(false, Tokens([n]))
  {
    BlockPathExtend(path, [If]);
    BlockPathShape(path);
    var k := StackState(BlockPath(path), Pop(temps) + [Reverse(Chain(path) + [If] + tail)], true);
    MeetPartner(k, LineHeader(last, n.tok), Else, Chain(path), tail);
    FollowsToken(k, last, false, n);
  }

  lemma {:induction false} FollowsRest(s: Stmt, path: seq<Entry>, temps: seq<seq<Entry>>, depth: nat)
    requires WellFormed(s) && StartsWithIf(s) && |temps| > 0 && Do !in Top(temps)
    ensures Follows(StackState(path + [If], temps, true), Some(If), false, AnnotateRest(s, path, depth),
                    After(path, temps, s))
    decreases s, 2
  {
    var k := StackState(path + [If], temps, true);
    FollowsStmt(s.thn, k, Some(If), false, BodyDepth(s.thn, depth));
    if s.IfThen? {
      AfterBody(path, temps, If, s.thn, s);
    } else {
      FollowsThenElse(s, path, temps, depth);
    }
  }

  lemma {:induction false} FollowsThenElse(s: Stmt, path: seq<Entry>, temps: seq<seq<Entry>>, depth: nat)
    requires WellFormed(s) && s.IfElse? && |temps| > 0 && Do !in Top(temps)
    requires Follows(StackState(path + [If], temps, true), Some(If), false,
                     Annotate(s.thn, path + [If], BodyDepth(s.thn, depth)), After(path + [If], temps, s.thn))
    ensures Follows(StackState(path + [If], temps, true), Some(If), false, AnnotateRest(s, path, depth),
                    After(path, temps, s))
    decreases s, 1
  {
    var k := StackState(path + [If], temps, true);
    var thn := Annotate(s.thn, path + [If], BodyDepth(s.thn, depth));
    var k1 := After(path + [If], temps, s.thn);
    var n := Note(Token(s.nlElse, Head(Else)), path + [Else], depth);
    var temps2 := Pop(temps) + [Reverse([If] + Tail(s.thn))];
    var k2 := StackState(path + [Else], temps2, true);
    var rest := AnnotateElsePart(s.els, path, depth);
    var last := LineHeaderAfter(Some(If), Tokens(thn));
    assert If !in Tail(s.thn) by { TailHoldsOpenIf(s.thn); }
    assert Do !in Top(temps2) by { ReverseMember([If] + Tail(s.thn), Do); }
    FollowsElse(path, temps, Tail(s.thn), last, n);
    FollowsElsePart(s, path, temps2, depth);
    FollowsConcat(k1, last, false, [n], k2, rest, After(path, temps, s));
    FollowsConcat(k, Some(If), false, thn, k1, [n] + rest, After(path, temps, s));
  }

  lemma {:induction false} FollowsElsePart(s: Stmt, path: seq<Entry>, temps: seq<seq<Entry>>, depth: nat)
    requires WellFormed(s) && s.IfElse? && |temps| > 0 && Do !in Top(temps)
    ensures Follows(StackState(path + [Else], temps, true), Some(Else), true, AnnotateElsePart(s.els, path, depth),
                    After(path, temps, s))
    decreases s, 0
  {
    var k := StackState(path + [Else], temps, true);
    if Collapsed(s.els) {
      var n := Note(Token(false, Head(If)), path + [If], depth);
      FollowsCollapsedIf(path, temps, n);
      FollowsRest(s.els, path, temps, depth);
      FollowsConcat(k, Some(Else), true, [n], StackState(path + [If], temps, true),
                    AnnotateRest(s.els, path, depth), After(path, temps, s.els));
    } else {
      FollowsStmt(s.els, k, Some(Else), true, BodyDepth(s.els, depth));
      AfterBody(path, temps, Else, s.els, s);
    }
  }

  /**
   The header stack of a whole program: after every token it is the path that
   the syntax tree gives, if and only if the layout leaves no stale `else`.
   */
  lemma {:induction false} HeadersArePaths(program: seq<Stmt>, notes: seq<Note>)
    requires forall s :: s in program ==> WellFormed(s)
    requires notes == AnnotateAll(program, [], 0)
    ensures Trace(INITIAL, None, Tokens(notes)) == Paths(notes) <==> ElsesAreFresh(Tokens(notes))
  {
    FollowsAll(program, INITIAL, None, 0);
    StaleByPlace(Tokens(notes));
  }

  /** Then the stack is empty at the end of the program. */
  lemma {:induction false} HeadersAreClosed(program: seq<Stmt>, notes: seq<Note>)
    requires forall s :: s in program ==> WellFormed(s)
    requires notes == AnnotateAll(program, [], 0) && ElsesAreFresh(Tokens(notes))
    ensures Run(INITIAL, None, Tokens(notes)).headers == []
  {
    FollowsAll(program, INITIAL, None, 0);
    StaleByPlace(Tokens(notes));
  }

  /** After statements whose last line holds an `else`, an `if` on the same line pops the brace of the block. */
  lemma {:induction false} StaleElseLosesTheBlock(ss: seq<Stmt>, k: StackState, last: Option<Entry>, depth: nat, j: nat)
    requires Ready(k) && |k.headers| > 0 && BlockPath(k.headers) == k.headers
    requires forall s :: s in ss ==> WellFormed(s)
    requires var toks := Tokens(AnnotateAll(ss, k.headers, depth));
             NoStaleElse(last, false, toks) && Lasts(toks, j, |toks|)
    ensures var toks := Tokens(AnnotateAll(ss, k.headers, depth)) + [Token(false, Head(If))];
            StaleElse(toks, j, |toks| - 1) && Run(k, last, toks).headers == Pop(k.headers) + [If]
  {
    var toks, t := Tokens(AnnotateAll(ss, k.headers, depth)), [Token(false, Head(If))];
    FollowsAll(ss, k, last, depth);
    EndsQuietly(ss, k.headers, depth);
    LastsFromAnywhere(last, toks, j);
    RunConcat(k, last, toks, t);
    assert t[1..] == [];
  }

  lemma {:induction false} LastsFromAnywhere(last: Option<Entry>, toks: seq<Token>, j: nat)
    requires Lasts(toks, j, |toks|)
    ensures LineHeaderAfter(last, toks) == Some(Else)
    decreases |toks|
  {
    if j > 0 {
      assert toks[1..][j - 1] == toks[j];
      LastsFromAnywhere(NextLineHeader(last, toks[0]), toks[1..], j - 1);
    } else {
      ElseIsKept(toks[1..]);
    }
  }

  lemma {:induction false} ElseIsKept(toks: seq<Token>)
    requires forall k :: 0 <= k < |toks| ==> !toks[k].newLine && (toks[k].kind == Semi || toks[k].kind == Close)
    ensures LineHeaderAfter(Some(Else), toks) == Some(Else)
    decreases |toks|
  {
    if |toks| > 0 {
      ElseIsKept(toks[1..]);
    }
  }

  lemma {:induction false} EndsQuietly(ss: seq<Stmt>, path: seq<Entry>, depth: nat)
    ensures var notes := AnnotateAll(ss, path, depth); |notes| > 0 ==> !Top(notes).tok.kind.Head?
    decreases |ss|
  {
    if |ss| > 0 {
      EndsQuietly(ss[1..], path, depth);
    }
  }

  /** `if (a) x;` and then, on one line, `else y; if (b) z;` is such a program. */
  lemma {:induction false} StaleElseExample()
    ensures var first, second := IfElse(true, Simple(true), true, Simple(false)), IfThen(false, Simple(true));
            var a := Tokens(Annotate(first, [OpenBrace], 1));
            a == [Token(true, Head(If)), Token(true, Semi), Token(true, Head(Else)), Token(false, Semi)] &&
            WellFormed(first) && WellFormed(second) && ElsesAreFresh(a) && Lasts(a, 2, 4) &&
            Tokens(AnnotateAll([first, second], [OpenBrace], 1)) == a + [Token(false, Head(If)), Token(true, Semi)]
  {
    var first, second := IfElse(true, Simple(true), true, Simple(false)), IfThen(false, Simple(true));
    var p: seq<Entry> := [OpenBrace];
    IfElseNotes(p, 1);
    IfThenNotes(p, 1);
    var a, b := Annotate(first, p, 1), Annotate(second, p, 1);
    assert [first, second][1..] == [second] && [second][1..] == [];
    assert AnnotateAll([second], p, 1) == b + AnnotateAll([], p, 1) == b;
    assert AnnotateAll([first, second], p, 1) == a + b;
    FreshLine(Tokens(a));
  }

  lemma {:induction false} IfElseNotes(p: seq<Entry>, depth: nat)
    requires BlockPath(p) == p
    ensures Annotate(IfElse(true, Simple(true), true, Simple(false)), p, depth) ==
            [Note(Token(true, Head(If)), p + [If], depth), Note(Token(true, Semi), p, depth + 1),
             Note(Token(true, Head(Else)), p + [Else], depth), Note(Token(false, Semi), p, depth + 1)]
  {
    assert BlockPath(p + [If]) == BlockPath(Pop(p + [If])) && Pop(p + [If]) == p;
    assert BlockPath(p + [Else]) == BlockPath(Pop(p + [Else])) && Pop(p + [Else]) == p;
  }

  lemma {:induction false} IfThenNotes(p: seq<Entry>, depth: nat)
    requires BlockPath(p) == p
    ensures Annotate(IfThen(false, Simple(true)), p, depth) ==
            [Note(Token(false, Head(If)), p + [If], depth), Note(Token(true, Semi), p, depth + 1)]
  {
    assert BlockPath(p + [If]) == BlockPath(Pop(p + [If])) && Pop(p + [If]) == p;
  }

  lemma {:induction false} FreshLine(a: seq<Token>)
    requires |a| == 4 && forall i :: 0 < i < 4 ==> a[i].kind != Head(If)
    ensures ElsesAreFresh(a)
  {
    forall j: nat, i: nat ensures !StaleElse(a, j, i) {
    }
  }
}
