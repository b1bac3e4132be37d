/** Why termination is claimed for the bounded stack only: a valid automaton over an acyclic grammar
    whose run on a growing stack never stops.  The bounded run of the same automaton overflows. */
module GrowingStack {
  import opened Grammars
  import opened Automata
  import opened Runs
  import opened Termination
  import opened Engine

  /** A nonterminal whose value is an expression list. */
  const MARK: nat := 199

  /** One rule, `MARK ::=`, reduced by default in both states. */
  const G := Grammar(2, 2, 1, [], [Rule(MARK, [])], {})
  const A := Automaton(G, 2, 2, [{Item(0, 0)}, {Item(0, 0)}], [map[], map[]], [map[MARK := 1], map[MARK := 1]], [3, 3])
  const RANKING := Ranking({MARK}, map[MARK := 0], 0)

  lemma IsValid()
    ensures A.Valid() && RANKING.Certifies(G)
  {
    forall s: nat, look: nat | s < A.nState && look < G.nTerminal
      ensures A.ShiftOk(s, look)
    {
    }
  }

  lemma OneMore(stack: seq<Entry>, tok: Token)
    requires Inv(A, stack) && Top(stack).stateno < 2 && tok.code < 2
    ensures Take(A, stack, tok) == Reduced(stack + [Entry(1, MARK, Node(0, []))])
  {
    TopIsReadable(A, stack, tok.code);
    assert stack[..|stack|] == stack && Minors(stack[|stack|..]) == [];
  }

  lemma OneMoreTurn(c: Config, tok: Token)
    requires Live(A, c) && c.input == [tok] && c.status == Running && Top(c.stack).stateno < 2 && tok.code < 2
    ensures var c' := Advance(A, 0, c);
            c'.input == [tok] && c'.status == Running && |c'.stack| == |c.stack| + 1 && Top(c'.stack).stateno < 2
            && Top(c'.stack).major == MARK
  {
    OneMore(c.stack, tok);
    hide Inv, Automaton.Valid, Take;
  }

  lemma {:induction false} NeverStops(tok: Token, n: nat)
    requires tok.code < 2
    ensures A.Valid()
    ensures var c := After(A, 0, Initial([tok]), n);
            c.input == [tok] && c.status == Running && |c.stack| == n + 1 && Top(c.stack).stateno < 2
            && (n > 0 ==> Top(c.stack).major == MARK)
  {
    IsValid();
    assert Live(A, Initial([tok]));
    hide Live, Advance, Automaton.Valid;
    if n > 0 {
      NeverStops(tok, n - 1);
      OneMoreTurn(After(A, 0, Initial([tok]), n - 1), tok);
    }
  }

  /** On a stack of `depth` entries the same run overflows after `depth` turns. */
  lemma BoundedOverflows(tok: Token, depth: nat)
    requires tok.code < 2 && depth > 0
    ensures A.Valid()
    ensures After(A, depth, Initial([tok]), depth).status == StackOverflow
  {
    NeverStops(tok, depth);
    BoundedRefinesUnbounded(A, depth, Initial([tok]), depth);
    assert !HasRoom(depth, |After(A, 0, Initial([tok]), depth).stack|);
  }

  /** That overflow misses a clean-up: the expression list on top of the full stack is never deleted. */
  lemma ListIsNeverDeleted(tok: Token, depth: nat)
    requires tok.code < 2 && depth > 1
    ensures A.Valid()
    ensures var last := After(A, depth, Initial([tok]), depth - 1);
            && Active(last) && |last.stack| == depth && Advance(A, depth, last).status == StackOverflow
            && DestructorOf(Top(last.stack).major) == DeleteExprList
            && CleanUps(Releases(last.stack)) == [ReleaseOf(Top(last.stack))] + CleanUps(ReleasedBy(A, depth, last))
  {
    hide Inv, Automaton.Valid, Take, TakeWithin, Advance, After, Live, ReleasedBy, OverflowReleases;
    BoundedOverflows(tok, depth);
    NeverStops(tok, depth - 1);
    FullAtLast(tok, depth);
    LiveAtFirst(tok);
    AfterOneMore(A, depth, Initial([tok]), depth);
    var last := After(A, depth, Initial([tok]), depth - 1);
    StackIsValid(last);
    MarkIsReduced(last.stack, tok);
    CleanUpMissedExactly(A, depth, last.stack, tok);
    OverflowIsReleased(A, depth, last);
  }

  lemma LiveAtFirst(tok: Token)
    requires tok.code < 2
    ensures Live(A, Initial([tok]))
  {
    IsValid();
  }

  lemma StackIsValid(c: Config)
    requires Live(A, c)
    ensures Inv(A, c.stack)
  {
  }

  lemma FullAtLast(tok: Token, depth: nat)
    requires tok.code < 2 && depth > 1
    ensures Live(A, Initial([tok])) && After(A, depth, Initial([tok]), depth - 1) == After(A, 0, Initial([tok]), depth - 1)
  {
    hide Inv, Automaton.Valid, Take, Advance, After, Live;
    LiveAtFirst(tok);
    forall k: nat | k <= depth - 1
      ensures HasRoom(depth, |After(A, 0, Initial([tok]), k).stack|)
    {
      NeverStops(tok, k);
    }
    BoundedRefinesUnbounded(A, depth, Initial([tok]), depth - 1);
  }

  lemma MarkIsReduced(stack: seq<Entry>, tok: Token)
    requires Inv(A, stack) && Top(stack).stateno < 2 && tok.code < 2
    ensures ReducesEmptyRule(A, stack, tok)
  {
  }
}
