/** Why the per-token loop stops: on a bounded stack and an acyclic grammar every turn that does
    not consume the token makes a lexicographic measure smaller. */
module Termination {
  import opened Grammars
  import opened Automata
  import opened Runs

  /** A certificate that no nonterminal derives itself: the nullable symbols, and a rank that grows
      from the one right-hand-side symbol that need not vanish to the left-hand side. */
  datatype Ranking = Ranking(nullable: set<nat>, rank: map<nat, nat>, top: nat)
  {
    /** Terminals have rank 0, nonterminals at least 1. */
    function Of(g: Grammar, x: nat): (k: nat)
      ensures k <= top + 1
      ensures x < g.nTerminal <==> k == 0
    {
      if x < g.nTerminal then 0
      else if x in rank && rank[x] <= top then rank[x] + 1 else 1
    }

    ghost predicate Vanishing(g: Grammar, cls: set<nat>) {
      exists x :: x in nullable && g.Matches(x, cls)
    }

    ghost predicate OthersVanish(g: Grammar, r: nat, i: nat)
      requires r < |g.rules|
    {
      forall j | 0 <= j < |g.rules[r].rhs| && j != i :: Vanishing(g, g.rules[r].rhs[j])
    }

    ghost predicate NullableOk(g: Grammar, r: nat)
      requires r < |g.rules|
    {
      (forall j | 0 <= j < |g.rules[r].rhs| :: Vanishing(g, g.rules[r].rhs[j])) ==> g.rules[r].lhs in nullable
    }

    ghost predicate RankOk(g: Grammar, r: nat, i: nat, x: nat)
      requires r < |g.rules| && i < |g.rules[r].rhs|
    {
      g.Matches(x, g.rules[r].rhs[i]) && OthersVanish(g, r, i) ==> Of(g, x) < Of(g, g.rules[r].lhs)
    }

    /** The grammar is acyclic. */
    ghost predicate Certifies(g: Grammar) {
      && (forall r: nat | r < |g.rules| :: NullableOk(g, r))
      && (forall r: nat, i: nat, x: nat | r < |g.rules| && i < |g.rules[r].rhs| :: RankOk(g, r, i, x))
    }
  }

  predicate Vanished(e: Entry) {
    Yield(e.minor) == []
  }

  /** How many entries stand for at least one token. */
  function Solid(es: seq<Entry>): nat {
    if es == [] then 0 else (if Vanished(es[0]) then 0 else 1) + Solid(es[1..])
  }

  /** How far the token-bearing entries still are from the top rank. */
  function Slack(k: Ranking, g: Grammar, es: seq<Entry>): nat {
    if es == [] then 0
    else (if Vanished(es[0]) then 0 else k.top + 1 - k.Of(g, es[0].major)) + Slack(k, g, es[1..])
  }

  function Power(b: nat, n: nat): (p: nat)
    ensures b > 0 ==> p > 0
  {
    if n == 0 then 1 else b * Power(b, n - 1)
  }

  /** Slot `i` of the stack as a digit: rank plus one, or zero for a free slot. */
  function Digit(k: Ranking, g: Grammar, es: seq<Entry>, i: nat): (d: nat)
    ensures d < k.top + 3
  {
    if i < |es| then k.Of(g, es[i].major) + 1 else 0
  }

  /** The first `depth` slots of the stack read as a numeral. */
  function Numeral(k: Ranking, g: Grammar, depth: nat, es: seq<Entry>): nat {
    if depth == 0 then 0 else (k.top + 3) * Numeral(k, g, depth - 1, es) + Digit(k, g, es, depth - 1)
  }

  lemma LeadingDigit(b: nat, v: nat, w: nat, d: nat)
    requires v < w && d < b
    ensures b * v + d < b * w
  {
    assert b * (v + 1) <= b * w;
  }

  lemma {:induction false} NumeralBound(k: Ranking, g: Grammar, depth: nat, es: seq<Entry>)
    ensures Numeral(k, g, depth, es) < Power(k.top + 3, depth)
  {
    if depth > 0 {
      NumeralBound(k, g, depth - 1, es);
      LeadingDigit(k.top + 3, Numeral(k, g, depth - 1, es), Power(k.top + 3, depth - 1), Digit(k, g, es, depth - 1));
    }
  }

  /** Raising one slot raises the numeral, whatever happens to the slots after it. */
  lemma {:induction false} NumeralRises(k: Ranking, g: Grammar, depth: nat, es: seq<Entry>, es': seq<Entry>, i: nat)
    requires forall j: nat | j < i :: Digit(k, g, es, j) == Digit(k, g, es', j)
    requires Digit(k, g, es, i) < Digit(k, g, es', i)
    ensures depth <= i ==> Numeral(k, g, depth, es) == Numeral(k, g, depth, es')
    ensures i < depth ==> Numeral(k, g, depth, es) < Numeral(k, g, depth, es')
  {
    if depth > 0 {
      NumeralRises(k, g, depth - 1, es, es', i);
      if i < depth - 1 {
        LeadingDigit(k.top + 3, Numeral(k, g, depth - 1, es), Numeral(k, g, depth - 1, es'), Digit(k, g, es, depth - 1));
      }
    }
  }

  lemma {:induction false} SolidConcat(k: Ranking, g: Grammar, a: seq<Entry>, b: seq<Entry>)
    ensures Solid(a + b) == Solid(a) + Solid(b)
    ensures Slack(k, g, a + b) == Slack(k, g, a) + Slack(k, g, b)
  {
    if a == [] {
      assert a + b == b;
    } else {
      assert (a + b)[0] == a[0] && (a + b)[1..] == a[1..] + b;
      SolidConcat(k, g, a[1..], b);
    }
  }

  lemma SolidOne(k: Ranking, g: Grammar, e: Entry)
    ensures Solid([e]) == if Vanished(e) then 0 else 1
    ensures Slack(k, g, [e]) == if Vanished(e) then 0 else k.top + 1 - k.Of(g, e.major)
  {
    assert [e][1..] == [];
  }

  lemma {:induction false} SolidZero(k: Ranking, g: Grammar, es: seq<Entry>)
    ensures Solid(es) == 0 <==> StackYield(es) == []
    ensures Solid(es) == 0 ==> Slack(k, g, es) == 0 && forall j | 0 <= j < |es| :: Vanished(es[j])
  {
    if es != [] {
      SolidZero(k, g, es[1..]);
      assert Minors(es)[1..] == Minors(es[1..]);
    }
  }

  /** With exactly one token-bearing entry, there is a position that holds it. */
  lemma {:induction false} SolidAt(k: Ranking, g: Grammar, es: seq<Entry>) returns (i: nat)
    requires Solid(es) == 1
    ensures i < |es| && (forall j | 0 <= j < |es| && j != i :: Vanished(es[j]))
    ensures Slack(k, g, es) == k.top + 1 - k.Of(g, es[i].major)
  {
    if Vanished(es[0]) {
      var i' := SolidAt(k, g, es[1..]);
      i := i' + 1;
      forall j | 0 <= j < |es| && j != i
        ensures Vanished(es[j])
      {
        assert j > 0 ==> es[j] == es[1..][j - 1];
      }
    } else {
      SolidZero(k, g, es[1..]);
      i := 0;
    }
  }

  /** A tree that spells nothing has a nullable symbol at its root. */
  lemma {:induction false} EmptyTreeIsNullable(k: Ranking, g: Grammar, t: Tree)
    requires g.WellFormed() && k.Certifies(g) && g.Instance(t) && Yield(t) == []
    ensures t.Node? && g.Symbol(t) in k.nullable
    decreases t, 0
  {
    EmptyKidsVanish(k, g, t.kids, g.rules[t.rule].rhs);
    assert k.NullableOk(g, t.rule);
  }

  lemma {:induction false} EmptyKidsVanish(k: Ranking, g: Grammar, kids: seq<Tree>, rhs: seq<set<nat>>)
    requires g.WellFormed() && k.Certifies(g) && |kids| == |rhs| && YieldAll(kids) == []
    requires forall j | 0 <= j < |kids| :: g.Instance(kids[j]) && g.Matches(g.Symbol(kids[j]), rhs[j])
    ensures forall j | 0 <= j < |kids| :: k.Vanishing(g, rhs[j])
    decreases kids, 1
  {
    if kids != [] {
      EmptyTreeIsNullable(k, g, kids[0]);
      assert g.Symbol(kids[0]) in k.nullable && g.Matches(g.Symbol(kids[0]), rhs[0]);
      EmptyKidsVanish(k, g, kids[1..], rhs[1..]);
      forall j | 0 <= j < |kids|
        ensures k.Vanishing(g, rhs[j])
      {
        assert j > 0 ==> rhs[j] == rhs[1..][j - 1];
      }
    }
  }

  ghost function Distance(k: Ranking, g: Grammar, depth: nat, stack: seq<Entry>): nat {
    NumeralBound(k, g, depth, stack);
    Power(k.top + 3, depth) - Numeral(k, g, depth, stack)
  }

  /** `s'` comes before `s` in the lexicographic order of the three measures. */
  ghost predicate Closer(k: Ranking, g: Grammar, depth: nat, s: seq<Entry>, s': seq<Entry>) {
    || Solid(s') < Solid(s)
    || (Solid(s') == Solid(s) && Slack(k, g, s') < Slack(k, g, s))
    || (Solid(s') == Solid(s) && Slack(k, g, s') == Slack(k, g, s) && Distance(k, g, depth, s') < Distance(k, g, depth, s))
  }

  ghost predicate OthersVanished(es: seq<Entry>, i: nat) {
    i < |es| && forall j | 0 <= j < |es| && j != i :: Vanished(es[j])
  }

  /** Ranks grow from the one position that need not vanish. */
  lemma RankGrows(k: Ranking, a: Automaton, stack: seq<Entry>, r: nat, i: nat)
    requires k.Certifies(a.g) && ReduceReady(a, stack, r) && i < a.g.NRhs(r) < |stack|
    requires OthersVanished(stack[|stack| - a.g.NRhs(r)..], i)
    ensures k.Of(a.g, stack[|stack| - a.g.NRhs(r) + i].major) < k.Of(a.g, a.g.LhsOf(r))
  {
    GotoNeverMisses(a, stack, r);
    var n := a.g.NRhs(r);
    var args := stack[|stack| - n..];
    forall j | 0 <= j < n && j != i
      ensures k.Vanishing(a.g, a.g.rules[r].rhs[j])
    {
      assert LinkOk(a, stack, |stack| - n + j);
      assert Vanished(args[j]);
      EmptyTreeIsNullable(k, a.g, args[j].minor);
    }
    assert k.RankOk(a.g, r, i, args[i].major);
  }

  /** Merging entries into one of higher rank never adds to the measure: it merges token-bearing
      entries, or lifts the only one, or fills a slot with something of higher rank. */
  lemma MergeComesCloser(k: Ranking, g: Grammar, depth: nat, keep: seq<Entry>, args: seq<Entry>, e: Entry)
    requires StackYield(args) == Yield(e.minor) && |keep| < depth
    requires forall i: nat | OthersVanished(args, i) :: k.Of(g, args[i].major) < k.Of(g, e.major)
    ensures Closer(k, g, depth, keep + args, keep + [e])
  {
    SolidConcat(k, g, keep, args);
    SolidConcat(k, g, keep, [e]);
    SolidOne(k, g, e);
    SolidZero(k, g, args);
    if Solid(args) == 1 {
      var i := SolidAt(k, g, args);
      assert OthersVanished(args, i);
    } else if Solid(args) == 0 {
      assert args != [] ==> OthersVanished(args, 0);
      NumeralRises(k, g, depth, keep + args, keep + [e], |keep|);
    }
  }

  lemma RanksGrow(k: Ranking, a: Automaton, stack: seq<Entry>, r: nat)
    requires k.Certifies(a.g) && ReduceReady(a, stack, r) && a.g.NRhs(r) < |stack|
    ensures var args := stack[|stack| - a.g.NRhs(r)..];
            forall i: nat | OthersVanished(args, i) :: k.Of(a.g, args[i].major) < k.Of(a.g, a.g.LhsOf(r))
  {
    var args := stack[|stack| - a.g.NRhs(r)..];
    forall i: nat | OthersVanished(args, i)
      ensures k.Of(a.g, args[i].major) < k.Of(a.g, a.g.LhsOf(r))
    {
      RankGrows(k, a, stack, r, i);
    }
  }

  lemma ReducedTop(a: Automaton, stack: seq<Entry>, r: nat)
    requires ReduceReady(a, stack, r) && ReduceBy(a, stack, r).Reduced?
    ensures a.g.NRhs(r) < |stack|
    ensures var m, s' := |stack| - a.g.NRhs(r), ReduceBy(a, stack, r).stack;
            && |s'| == m + 1 && s' == stack[..m] + [Top(s')]
            && Top(s').major == a.g.LhsOf(r) && Top(s').minor == Node(r, Minors(stack[m..]))
  {
    GotoNeverMisses(a, stack, r);
    hide Inv, Automaton.Valid;
  }

  lemma ReduceComesCloser(k: Ranking, a: Automaton, depth: nat, stack: seq<Entry>, r: nat)
    requires k.Certifies(a.g) && ReduceReady(a, stack, r)
    requires ReduceBy(a, stack, r).Reduced? && |ReduceBy(a, stack, r).stack| <= depth
    ensures Closer(k, a.g, depth, stack, ReduceBy(a, stack, r).stack)
  {
    hide Inv, Automaton.Valid, ReduceBy, Closer, Ranking.Certifies, Yield, YieldAll, OthersVanished;
    ReducedTop(a, stack, r);
    RanksGrow(k, a, stack, r);
    var m, s' := |stack| - a.g.NRhs(r), ReduceBy(a, stack, r).stack;
    NodeYield(stack, r, m);
    assert stack == stack[..m] + stack[m..];
    MergeComesCloser(k, a.g, depth, stack[..m], stack[m..], Top(s'));
  }

  /** Every turn that keeps the token and does not overflow comes closer. */
  lemma TurnComesCloser(k: Ranking, a: Automaton, depth: nat, stack: seq<Entry>, tok: Token)
    requires k.Certifies(a.g) && Inv(a, stack) && tok.code < a.g.nTerminal && depth > 0
    requires TakeWithin(a, depth, stack, tok).Reduced?
    ensures Closer(k, a.g, depth, stack, TakeWithin(a, depth, stack, tok).stack)
  {
    TopIsReadable(a, stack, tok.code);
    ReduceComesCloser(k, a, depth, stack, a.FindShift(Top(stack).stateno, tok.code) - a.MinReduce());
  }

  lemma TurnConsumesOrComesCloser(k: Ranking, a: Automaton, depth: nat, c: Config)
    requires k.Certifies(a.g) && Live(a, c) && depth > 0 && Active(c)
    ensures var c' := Advance(a, depth, c);
            Active(c') ==> c'.input == c.input[1..] || (c'.input == c.input && Closer(k, a.g, depth, c.stack, c'.stack))
  {
    if TakeWithin(a, depth, c.stack, c.input[0]).Reduced? {
      TurnComesCloser(k, a, depth, c.stack, c.input[0]);
    }
  }

  /** The number of turns until a token is dealt with is finite: after them the token has been
      shifted or the run has stopped. */
  lemma {:induction false} TokenIsDealtWith(k: Ranking, a: Automaton, depth: nat, c: Config) returns (n: nat)
    requires k.Certifies(a.g) && Live(a, c) && depth > 0
    ensures var c' := After(a, depth, c, n); Active(c') ==> Active(c) && c'.input == c.input[1..]
    decreases Solid(c.stack), Slack(k, a.g, c.stack), Distance(k, a.g, depth, c.stack)
  {
    hide Advance;
    n := 0;
    if Active(c) {
      n := 1;
      TurnConsumesOrComesCloser(k, a, depth, c);
      var c1 := Advance(a, depth, c);
      assert After(a, depth, c, 1) == Advance(a, depth, After(a, depth, c, 0));
      if Active(c1) && c1.input == c.input {
        var m := TokenIsDealtWith(k, a, depth, c1);
        AfterAdds(a, depth, c, 1, m);
        n := 1 + m;
      }
    }
  }

  /** Every run over a bounded stack stops. */
  lemma {:induction false} RunsStop(k: Ranking, a: Automaton, depth: nat, c: Config) returns (n: nat)
    requires k.Certifies(a.g) && Live(a, c) && depth > 0
    ensures !Active(After(a, depth, c, n))
    decreases |c.input|
  {
    hide Advance;
    n := TokenIsDealtWith(k, a, depth, c);
    var c' := After(a, depth, c, n);
    if Active(c') {
      var m := RunsStop(k, a, depth, c');
      AfterAdds(a, depth, c, n, m);
      n := n + m;
    }
  }

  // --- How many turns ---

  function SlackRoom(k: Ranking, depth: nat): (n: nat)
    ensures n > 0
  {
    depth * (k.top + 1) + 1
  }

  function DistanceRoom(k: Ranking, depth: nat): (n: nat)
    ensures n > 0
  {
    Power(k.top + 3, depth) + 1
  }

  /** The three measures as one number. */
  ghost function Measure(k: Ranking, g: Grammar, depth: nat, stack: seq<Entry>): nat {
    Two(DistanceRoom(k, depth), Two(SlackRoom(k, depth), Solid(stack), Slack(k, g, stack)), Distance(k, g, depth, stack))
  }

  /** The two-digit numeral `v`, `d` to base `b`. */
  function Two(b: nat, v: nat, d: nat): nat {
    b * v + d
  }

  /** The most turns a token can take on a stack of `depth` entries. */
  function TurnBound(k: Ranking, depth: nat): nat {
    DistanceRoom(k, depth) * (SlackRoom(k, depth) * (depth + 1))
  }

  lemma {:induction false} SlackFits(k: Ranking, g: Grammar, es: seq<Entry>)
    ensures Solid(es) <= |es| && Slack(k, g, es) <= |es| * (k.top + 1)
  {
    if es != [] {
      SlackFits(k, g, es[1..]);
      assert |es| * (k.top + 1) == |es[1..]| * (k.top + 1) + (k.top + 1);
    }
  }

  lemma StackFits(k: Ranking, g: Grammar, depth: nat, es: seq<Entry>)
    requires |es| <= depth
    ensures Solid(es) <= depth && Slack(k, g, es) < SlackRoom(k, depth) && Distance(k, g, depth, es) < DistanceRoom(k, depth)
  {
    hide Solid, Slack, Numeral, Power;
    SlackFits(k, g, es);
    Grows(|es|, depth, k.top + 1);
  }

  lemma Grows(v: nat, w: nat, b: nat)
    requires v <= w
    ensures v * b <= w * b && b * v <= b * w
  {
  }

  lemma MeasureFalls(k: Ranking, g: Grammar, depth: nat, s: seq<Entry>, s': seq<Entry>)
    requires Closer(k, g, depth, s, s') && |s| <= depth && |s'| <= depth
    ensures Measure(k, g, depth, s') < Measure(k, g, depth, s)
  {
    StackFits(k, g, depth, s);
    StackFits(k, g, depth, s');
    hide Solid, Slack, Distance, SlackRoom, DistanceRoom;
    var sr, dr := SlackRoom(k, depth), DistanceRoom(k, depth);
    if Solid(s') < Solid(s) {
      LeadingDigit(sr, Solid(s'), Solid(s), Slack(k, g, s'));
    }
    var v', v := Two(sr, Solid(s'), Slack(k, g, s')), Two(sr, Solid(s), Slack(k, g, s));
    if v' < v {
      LeadingDigit(dr, v', v, Distance(k, g, depth, s'));
    }
  }

  lemma MeasureFits(k: Ranking, g: Grammar, depth: nat, s: seq<Entry>)
    requires |s| <= depth
    ensures Measure(k, g, depth, s) < TurnBound(k, depth)
  {
    StackFits(k, g, depth, s);
    hide Solid, Slack, Distance, SlackRoom, DistanceRoom;
    var sr, dr := SlackRoom(k, depth), DistanceRoom(k, depth);
    LeadingDigit(sr, Solid(s), depth + 1, Slack(k, g, s));
    LeadingDigit(dr, Two(sr, Solid(s), Slack(k, g, s)), sr * (depth + 1), Distance(k, g, depth, s));
  }

  /** Dealing with a token takes at most `TurnBound` turns, whatever the stack holds. */
  lemma {:induction false} TokenIsDealtWithin(k: Ranking, a: Automaton, depth: nat, c: Config) returns (n: nat)
    requires k.Certifies(a.g) && Live(a, c) && depth > 0 && |c.stack| <= depth
    ensures var c' := After(a, depth, c, n); Active(c') ==> Active(c) && c'.input == c.input[1..]
    ensures n <= Measure(k, a.g, depth, c.stack) + 1 && n <= TurnBound(k, depth)
    decreases Measure(k, a.g, depth, c.stack)
  {
    hide Advance, After, Measure, TurnBound, Closer, Ranking.Certifies;
    MeasureFits(k, a.g, depth, c.stack);
    AfterNothing(a, depth, c);
    n := 0;
    if Active(c) {
      n := 1;
      TurnConsumesOrComesCloser(k, a, depth, c);
      TurnStaysInBounds(a, depth, c);
      AfterOneMore(a, depth, c, 1);
      var c1 := Advance(a, depth, c);
      if Active(c1) && c1.input == c.input {
        MeasureFalls(k, a.g, depth, c.stack, c1.stack);
        var m := TokenIsDealtWithin(k, a, depth, c1);
        AfterAdds(a, depth, c, 1, m);
        n := 1 + m;
      }
    }
  }

  /** A whole run stops within that many turns for each token still to come. */
  lemma {:induction false} RunsStopWithin(k: Ranking, a: Automaton, depth: nat, c: Config) returns (n: nat)
    requires k.Certifies(a.g) && Live(a, c) && depth > 0 && |c.stack| <= depth
    ensures !Active(After(a, depth, c, n)) && n <= (|c.input| + 1) * TurnBound(k, depth)
    decreases |c.input|
  {
    hide Advance, TurnBound, Ranking.Certifies;
    n := TokenIsDealtWithin(k, a, depth, c);
    var c' := After(a, depth, c, n);
    assert (|c.input| + 1) * TurnBound(k, depth) == |c.input| * TurnBound(k, depth) + TurnBound(k, depth);
    if Active(c') {
      StaysInBounds(a, depth, c, n);
      var m := RunsStopWithin(k, a, depth, c');
      AfterAdds(a, depth, c, n, m);
      n := n + m;
    } else {
      assert 0 <= |c.input| * TurnBound(k, depth);
    }
  }
}
