/** The grammar side of the parser: rules, tokens, parse trees, and what it means
    for a grammar to derive a string.  Nothing in this module mentions a parser state. */
module Grammars {

  /** One grammar rule.  A right-hand-side position is a class of symbols, because a
      terminal position may be written `ID|INDEXED`. */
  datatype Rule = Rule(lhs: nat, rhs: seq<set<nat>>)

  datatype Token = Token(code: nat, text: string)

  /** The semantic value carried by a stack entry: the free one, the parse tree itself. */
  datatype Tree = Leaf(tok: Token) | Node(rule: nat, kids: seq<Tree>)

  /** Terminals are the codes below `nTerminal`; code 0 is the end-of-input marker.
      `elided` holds the unit rules that the generator optimised out of the tables. */
  datatype Grammar = Grammar(
    nTerminal: nat,
    start: nat,
    wildcard: nat,
    fallback: seq<nat>,
    rules: seq<Rule>,
    elided: set<nat>)
  {
    ghost predicate WellFormed() {
      && 0 < nTerminal <= start
      && 0 < wildcard < nTerminal
      && |fallback| <= nTerminal && Fallback(0) == 0
      && (forall c: nat | c < |fallback| :: FallbackEnds(c))
      && (forall r | 0 <= r < |rules| :: nTerminal <= rules[r].lhs)
      && (forall r | r in elided :: r < |rules| && |rules[r].rhs| == 1 && OnlyNonterminals(rules[r].rhs[0]))
    }

    /** A fallback is a terminal with no fallback of its own. */
    predicate FallbackEnds(c: nat) {
      Fallback(c) < nTerminal && Fallback(Fallback(c)) == 0
    }

    predicate OnlyNonterminals(cls: set<nat>) {
      forall x | x in cls :: nTerminal <= x
    }

    function Fallback(code: nat): nat {
      if code < |fallback| then fallback[code] else 0
    }

    /** The symbols whose actions are tried for a token, in order; the wildcard is not tried for the end marker. */
    function Candidates(code: nat): seq<nat> {
      [code] + (if Fallback(code) != 0 then [Fallback(code)] else []) + (if code != 0 then [wildcard] else [])
    }

    function NRhs(r: nat): nat
      requires r < |rules|
    {
      |rules[r].rhs|
    }

    function LhsOf(r: nat): nat
      requires r < |rules|
    {
      rules[r].lhs
    }

    /** A token may stand where terminal `c` is wanted: it is `c`, it falls back to `c`,
        or `c` is the wildcard and the token is not the end marker. */
    predicate TokenFits(code: nat, c: nat) {
      || code == c
      || (Fallback(code) == c && c != 0)
      || (c == wildcard && code != 0)
    }

    /** Symbol `x` may stand where nonterminal `c` is wanted: it is `c`, or `c` rewrites to it
        through at most `n` of the elided unit rules. */
    ghost predicate StandsFor(x: nat, c: nat, n: nat)
      decreases n
    {
      || x == c
      || (n > 0 && exists r: nat, b: nat ::
            r in elided && r < |rules| && |rules[r].rhs| == 1 && rules[r].lhs == c && b in rules[r].rhs[0] && StandsFor(x, b, n - 1))
    }

    ghost predicate Fits(x: nat, c: nat) {
      if x < nTerminal then TokenFits(x, c) else StandsFor(x, c, |elided|)
    }

    ghost predicate Matches(x: nat, cls: set<nat>) {
      exists c :: c in cls && Fits(x, c)
    }

    function Symbol(t: Tree): nat
      requires t.Node? ==> t.rule < |rules|
    {
      match t
      case Leaf(tok) => tok.code
      case Node(r, _) => rules[r].lhs
    }

    /** Every node of the tree is an instance of its rule. */
    ghost predicate Instance(t: Tree) {
      match t
      case Leaf(tok) => 0 < tok.code < nTerminal
      case Node(r, kids) =>
        && r < |rules|
        && |kids| == |rules[r].rhs|
        && forall j | 0 <= j < |kids| :: Instance(kids[j]) && Matches(Symbol(kids[j]), rules[r].rhs[j])
    }
  }

  function Yield(t: Tree): seq<Token>
    decreases t, 0
  {
    match t
    case Leaf(tok) => [tok]
    case Node(_, kids) => YieldAll(kids)
  }

  function YieldAll(ts: seq<Tree>): seq<Token>
    decreases ts, 1
  {
    if ts == [] then [] else Yield(ts[0]) + YieldAll(ts[1..])
  }

  lemma {:induction false} YieldAllConcat(a: seq<Tree>, b: seq<Tree>)
    ensures YieldAll(a + b) == YieldAll(a) + YieldAll(b)
  {
    hide Yield;
    if a == [] {
      assert a + b == b;
    } else {
      var c := a + b;
      assert c[0] == a[0] && c[1..] == a[1..] + b;
      YieldAllConcat(a[1..], b);
      assert YieldAll(c) == Yield(a[0]) + (YieldAll(a[1..]) + YieldAll(b));
      assert YieldAll(a) == Yield(a[0]) + YieldAll(a[1..]);
    }
  }

  lemma YieldAllSingle(t: Tree)
    ensures YieldAll([t]) == Yield(t)
  {
    assert [t][1..] == [];
  }

  // --- Derivations: rewriting by grammar rules only, no trees and no parser states ---

  /** `v` is `u` with one nonterminal occurrence replaced by a right-hand side of one of its rules. */
  ghost predicate RewritesAt(g: Grammar, u: seq<nat>, v: seq<nat>, i: nat, r: nat, w: seq<nat>) {
    && i < |u| && r < |g.rules|
    && u[i] == g.rules[r].lhs
    && |w| == |g.rules[r].rhs|
    && (forall j | 0 <= j < |w| :: w[j] in g.rules[r].rhs[j])
    && v == u[..i] + w + u[i + 1..]
  }

  ghost predicate Rewrites(g: Grammar, u: seq<nat>, v: seq<nat>) {
    exists i: nat, r: nat, w: seq<nat> :: RewritesAt(g, u, v, i, r, w)
  }

  ghost predicate IsDerivation(g: Grammar, forms: seq<seq<nat>>) {
    && |forms| > 0
    && forall k | 0 <= k < |forms| - 1 :: Rewrites(g, forms[k], forms[k + 1])
  }

  ghost predicate DerivesBy(g: Grammar, u: seq<nat>, v: seq<nat>, forms: seq<seq<nat>>) {
    IsDerivation(g, forms) && forms[0] == u && forms[|forms| - 1] == v
  }

  ghost predicate Derives(g: Grammar, u: seq<nat>, v: seq<nat>) {
    exists forms :: DerivesBy(g, u, v, forms)
  }

  /** The token string is a sentence: some terminal string derivable from the start symbol
      agrees with it position by position, up to fallback and wildcard. */
  ghost predicate SentenceVia(g: Grammar, c: nat, toks: seq<Token>, v: seq<nat>) {
    && Derives(g, [c], v)
    && |v| == |toks|
    && forall j | 0 <= j < |v| :: v[j] < g.nTerminal && g.TokenFits(toks[j].code, v[j])
  }

  ghost predicate Sentence(g: Grammar, c: nat, toks: seq<Token>) {
    exists v :: SentenceVia(g, c, toks, v)
  }

  lemma DerivesRefl(g: Grammar, u: seq<nat>)
    ensures Derives(g, u, u)
  {
    assert DerivesBy(g, u, u, [u]);
  }

  lemma DerivesTrans(g: Grammar, u: seq<nat>, v: seq<nat>, w: seq<nat>)
    requires Derives(g, u, v) && Derives(g, v, w)
    ensures Derives(g, u, w)
  {
    var f :| DerivesBy(g, u, v, f);
    var h :| DerivesBy(g, v, w, h);
    var p := f + h[1..];
    forall k | 0 <= k < |p| - 1
      ensures Rewrites(g, p[k], p[k + 1])
    {
      if k >= |f| - 1 {
        assert p[k] == h[k - (|f| - 1)] && p[k + 1] == h[k - (|f| - 1) + 1];
      }
    }
    assert DerivesBy(g, u, w, p);
  }

  lemma DerivesStep(g: Grammar, u: seq<nat>, v: seq<nat>, i: nat, r: nat, w: seq<nat>)
    requires RewritesAt(g, u, v, i, r, w)
    ensures Derives(g, u, v)
  {
    var f := [u, v];
    assert Rewrites(g, f[0], f[1]);
    assert DerivesBy(g, u, v, f);
  }

  lemma RewritesInContext(g: Grammar, a: seq<nat>, u: seq<nat>, v: seq<nat>, b: seq<nat>)
    requires Rewrites(g, u, v)
    ensures Rewrites(g, a + u + b, a + v + b)
  {
    var i: nat, r: nat, w: seq<nat> :| RewritesAt(g, u, v, i, r, w);
    var x := a + u + b;
    assert x[..|a| + i] == a + u[..i];
    assert x[|a| + i + 1..] == u[i + 1..] + b;
    assert a + v + b == x[..|a| + i] + w + x[|a| + i + 1..];
    assert RewritesAt(g, x, a + v + b, |a| + i, r, w);
  }

  lemma DerivesInContext(g: Grammar, a: seq<nat>, u: seq<nat>, v: seq<nat>, b: seq<nat>)
    requires Derives(g, u, v)
    ensures Derives(g, a + u + b, a + v + b)
  {
    var f :| DerivesBy(g, u, v, f);
    var p := seq(|f|, k requires 0 <= k < |f| => a + f[k] + b);
    forall k | 0 <= k < |p| - 1
      ensures Rewrites(g, p[k], p[k + 1])
    {
      RewritesInContext(g, a, f[k], f[k + 1], b);
    }
    assert DerivesBy(g, a + u + b, a + v + b, p);
  }

  lemma DerivesConcat(g: Grammar, u1: seq<nat>, v1: seq<nat>, u2: seq<nat>, v2: seq<nat>)
    requires Derives(g, u1, v1) && Derives(g, u2, v2)
    ensures Derives(g, u1 + u2, v1 + v2)
  {
    DerivesInContext(g, [], u1, v1, u2);
    assert [] + u1 + u2 == u1 + u2 && [] + v1 + u2 == v1 + u2;
    DerivesInContext(g, v1, u2, v2, []);
    assert v1 + u2 + [] == v1 + u2 && v1 + v2 + [] == v1 + v2;
    DerivesTrans(g, u1 + u2, v1 + u2, v1 + v2);
  }

  /** The elided unit rules are still rules: standing in for a symbol is a derivation. */
  lemma {:induction false} StandsForDerives(g: Grammar, x: nat, c: nat, n: nat)
    requires g.StandsFor(x, c, n)
    ensures Derives(g, [c], [x])
    decreases n
  {
    if x == c {
      DerivesRefl(g, [c]);
    } else {
      var r: nat, b: nat :| r in g.elided && r < |g.rules| && |g.rules[r].rhs| == 1 && g.rules[r].lhs == c
                            && b in g.rules[r].rhs[0] && g.StandsFor(x, b, n - 1);
      assert [b] == [c][..0] + [b] + [c][1..];
      DerivesStep(g, [c], [b], 0, r, [b]);
      StandsForDerives(g, x, b, n - 1);
      DerivesTrans(g, [c], [b], [x]);
    }
  }

  /** A tree standing where `c` is wanted witnesses that `c` derives the tree's yield. */
  lemma {:induction false} TreeIsDerivation(g: Grammar, t: Tree, c: nat)
    requires g.WellFormed() && g.Instance(t) && g.Fits(g.Symbol(t), c)
    ensures Sentence(g, c, Yield(t))
    decreases t, 0
  {
    match t
    case Leaf(tok) =>
      DerivesRefl(g, [c]);
      assert tok.code < |g.fallback| ==> g.FallbackEnds(tok.code);
      assert SentenceVia(g, c, [tok], [c]);
    case Node(r, kids) =>
      var a := g.rules[r].lhs;
      StandsForDerives(g, a, c, |g.elided|);
      var w, v := KidsAreDerivations(g, kids, g.rules[r].rhs);
      assert w == [a][..0] + w + [a][1..];
      DerivesStep(g, [a], w, 0, r, w);
      DerivesTrans(g, [c], [a], w);
      DerivesTrans(g, [c], w, v);
      assert SentenceVia(g, c, Yield(t), v);
  }

  lemma {:induction false} KidsAreDerivations(g: Grammar, kids: seq<Tree>, rhs: seq<set<nat>>) returns (w: seq<nat>,
                                              v: seq<nat>)
    requires g.WellFormed() && |kids| == |rhs|
    requires forall j | 0 <= j < |kids| :: g.Instance(kids[j]) && g.Matches(g.Symbol(kids[j]), rhs[j])
    ensures |w| == |rhs| && forall j | 0 <= j < |w| :: w[j] in rhs[j]
    ensures Derives(g, w, v)
    ensures |v| == |YieldAll(kids)|
    ensures forall j | 0 <= j < |v| :: v[j] < g.nTerminal && g.TokenFits(YieldAll(kids)[j].code, v[j])
    decreases kids, 1
  {
    if kids == [] {
      DerivesRefl(g, []);
      return [], [];
    }
    var c :| c in rhs[0] && g.Fits(g.Symbol(kids[0]), c);
    TreeIsDerivation(g, kids[0], c);
    var v0 :| SentenceVia(g, c, Yield(kids[0]), v0);
    var w', v' := KidsAreDerivations(g, kids[1..], rhs[1..]);
    DerivesConcat(g, [c], v0, w', v');
    w, v := [c] + w', v0 + v';
  }
}
