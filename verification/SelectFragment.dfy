/** `SELECT *` by the rules of the SQL grammar, on a stack of five: a run in which the list of FROM sources is on top
    of the full stack when an empty rule is reduced, and is never deleted. */
module SelectFragment {
  import opened Grammars
  import opened Automata
  import opened Runs
  import opened Engine
  import SemanticValues

  const STAR: nat := 49
  const SELECT: nat := 119
  const INPUT: nat := 144
  const ONESELECT: nat := 195
  const DISTINCT: nat := 198
  const SELCOLLIST: nat := 199
  const FROM: nat := 200
  const WHERE_OPT: nat := 201
  const GROUPBY_OPT: nat := 202
  const HAVING_OPT: nat := 203
  const ORDERBY_OPT: nat := 204
  const LIMIT_OPT: nat := 205
  const SCLP: nat := 209

  const RULES: seq<Rule> := [
    Rule(INPUT, [{ONESELECT}]),
    Rule(ONESELECT, [{SELECT}, {DISTINCT}, {SELCOLLIST}, {FROM}, {WHERE_OPT}, {GROUPBY_OPT}, {HAVING_OPT},
                     {ORDERBY_OPT}, {LIMIT_OPT}]),
    Rule(DISTINCT, []),
    Rule(SCLP, []),
    Rule(SELCOLLIST, [{SCLP}, {STAR}]),
    Rule(FROM, []),
    Rule(WHERE_OPT, []),
    Rule(GROUPBY_OPT, []),
    Rule(HAVING_OPT, []),
    Rule(ORDERBY_OPT, []),
    Rule(LIMIT_OPT, [])
  ]

  const G := Grammar(143, INPUT, 96, [], RULES, {})

  const SR: nat := 11
  const R: nat := 22
  const ERROR: nat := 33
  const ACCEPT: nat := 34

  const A := Automaton(
    G, 11, SR,
    [ {Item(0, 0), Item(1, 0)}, {Item(0, 1)}, {Item(1, 1), Item(2, 0)}, {Item(1, 2), Item(3, 0), Item(4, 0)},
      {Item(4, 1)}, {Item(1, 3), Item(5, 0)}, {Item(1, 4), Item(6, 0)}, {Item(1, 5), Item(7, 0)},
      {Item(1, 6), Item(8, 0)}, {Item(1, 7), Item(9, 0)}, {Item(1, 8), Item(10, 0)} ],
    [ map[SELECT := 2], map[0 := R + 0], map[], map[], map[STAR := SR + 4], map[], map[], map[], map[], map[], map[] ],
    [ map[INPUT := ACCEPT, ONESELECT := 1], map[], map[DISTINCT := 3], map[SCLP := 4, SELCOLLIST := 5], map[],
      map[FROM := 6], map[WHERE_OPT := 7], map[GROUPBY_OPT := 8], map[HAVING_OPT := 9], map[ORDERBY_OPT := 10],
      map[LIMIT_OPT := SR + 1] ],
    [ ERROR, ERROR, R + 2, R + 3, ERROR, R + 5, R + 6, R + 7, R + 8, R + 9, R + 10 ])

  lemma IsSized()
    ensures A.Sized()
  {
  }

  lemma ShiftsAreOk(s: nat, look: nat)
    requires (s == 0 || s == 1 || s == 4) && look < 143
    ensures A.Sized() && A.ShiftOk(s, look)
  {
    IsSized();
    hide Automaton.Sized;
    assert G.Fits(SELECT, SELECT) && G.Fits(STAR, STAR);
  }

  lemma ReducesAreOk(s: nat, look: nat)
    requires s < 11 && s != 0 && s != 1 && s != 4 && look < 143
    ensures A.Sized() && A.ShiftOk(s, look)
  {
    IsSized();
    hide Automaton.Sized;
  }

  lemma FirstGotosAreOk(s: nat, x: nat)
    requires s < 4
    ensures A.Sized() && A.GotoOk(s, x)
  {
    IsSized();
    hide Automaton.Sized;
    assert x in A.goto[s] ==> G.Fits(x, x);
  }

  lemma MiddleGotosAreOk(s: nat, x: nat)
    requires 4 <= s < 8
    ensures A.Sized() && A.GotoOk(s, x)
  {
    IsSized();
    hide Automaton.Sized;
    assert x in A.goto[s] ==> G.Fits(x, x);
  }

  lemma LastGotosAreOk(s: nat, x: nat)
    requires 8 <= s < 11
    ensures A.Sized() && A.GotoOk(s, x)
  {
    IsSized();
    hide Automaton.Sized;
    assert x in A.goto[s] ==> G.Fits(x, x);
  }

  lemma FirstClosuresAreOk(s: nat, it: Item)
    requires s < 5
    ensures A.Sized() && A.ClosureOk(s, it)
  {
    IsSized();
    hide Automaton.Sized;
  }

  lemma LastClosuresAreOk(s: nat, it: Item)
    requires 5 <= s < 11
    ensures A.Sized() && A.ClosureOk(s, it)
  {
    IsSized();
    hide Automaton.Sized;
  }

  lemma StartIsOk(it: Item)
    ensures A.StartOk(it)
  {
  }

  lemma IsValid()
    ensures A.Valid()
  {
    hide Automaton.Sized, Automaton.ShiftOk, Automaton.GotoOk, Automaton.ClosureOk, Automaton.StartOk;
    IsSized();
    forall s: nat, look: nat | s < A.nState && look < G.nTerminal
      ensures A.ShiftOk(s, look)
    {
      if s == 0 || s == 1 || s == 4 { ShiftsAreOk(s, look); } else { ReducesAreOk(s, look); }
    }
    forall s: nat, x: nat | s < A.nState
      ensures A.GotoOk(s, x)
    {
      if s < 4 { FirstGotosAreOk(s, x); } else if s < 8 { MiddleGotosAreOk(s, x); } else { LastGotosAreOk(s, x); }
    }
    forall s: nat, it | s < A.nState
      ensures A.ClosureOk(s, it)
    {
      if s < 5 { FirstClosuresAreOk(s, it); } else { LastClosuresAreOk(s, it); }
    }
    forall it
      ensures A.StartOk(it)
    {
      StartIsOk(it);
    }
  }

  /** The value of LIMIT, which has no clean-up, is only ever put on the stack to be reduced at once. */
  lemma LimitIsFused()
    ensures SemanticValues.OnlyFused(A, SemanticValues.LIMIT_OPT)
  {
  }

  // --- The run ---

  const S := Entry(2, SELECT, Leaf(Token(SELECT, "SELECT")))
  const D := Entry(3, DISTINCT, Node(2, []))
  const C := Entry(4, SCLP, Node(3, []))
  const T := Entry(R + 4, STAR, Leaf(Token(STAR, "*")))
  const L := Entry(5, SELCOLLIST, Node(4, [Node(3, []), Leaf(Token(STAR, "*"))]))
  const F := Entry(6, FROM, Node(5, []))

  const INPUT_TOKENS := [Token(SELECT, "SELECT"), Token(STAR, "*"), Token(0, "*")]

  lemma EmptyRow(s: nat, look: nat)
    requires (s == 2 || s == 3 || s == 5 || s == 6) && look < 143
    ensures A.FindShift(s, look) == R + s && |RULES[s].rhs| == 0
    ensures RULES[s].lhs in A.goto[s] && A.goto[s][RULES[s].lhs] == s + 1
  {
  }

  /** A lookup that calls for an empty rule puts its left-hand side on top. */
  lemma TakesEmptyRule(a: Automaton, stack: seq<Entry>, tok: Token, r: nat)
    requires Inv(a, stack) && tok.code < a.g.nTerminal && a.IsStateno(Top(stack).stateno)
    requires r < a.NRule() && a.FindShift(Top(stack).stateno, tok.code) == a.MinReduce() + r && a.g.NRhs(r) == 0
    ensures ReducesEmptyRule(a, stack, tok)
    ensures var p, x := Top(stack).stateno, a.g.LhsOf(r);
            && p < a.nState && x in a.goto[p]
            && (a.goto[p][x] < a.MinReduce() ==>
                  Take(a, stack, tok) == Reduced(stack + [Entry(a.Fuse(a.goto[p][x]), x, Node(r, []))]))
  {
    assert a.Valid() && stack != [];
    hide Inv, Automaton.Valid, Automaton.FindShift, ReduceReady, ReduceBy;
    TopIsReadable(a, stack, tok.code);
    ReduceUnfolds(a, stack, r);
    assert stack[..|stack|] == stack && Minors(stack[|stack|..]) == [];
  }

  /** So does a state whose default action is an empty rule. */
  lemma EmptyRule(stack: seq<Entry>, tok: Token)
    requires Inv(A, stack) && tok.code < 143
    requires var s := Top(stack).stateno; s == 2 || s == 3 || s == 5 || s == 6
    ensures var r := Top(stack).stateno;
            && Take(A, stack, tok) == Reduced(stack + [Entry(r + 1, RULES[r].lhs, Node(r, []))])
            && ReducesEmptyRule(A, stack, tok)
  {
    assert stack != [] && A.Valid();
    hide Inv, Automaton.Valid, Automaton.FindShift, Take, ReducesEmptyRule;
    EmptyRow(Top(stack).stateno, tok.code);
    TakesEmptyRule(A, stack, tok, Top(stack).stateno);
  }

  lemma ShiftSelect()
    ensures Inv(A, [BASE]) && Take(A, [BASE], INPUT_TOKENS[0]) == Shifted([BASE, S])
  {
    IsValid();
    hide Automaton.Valid;
  }

  lemma ShiftStar(stack: seq<Entry>)
    requires Inv(A, stack) && Top(stack) == C
    ensures Take(A, stack, INPUT_TOKENS[1]) == Shifted(stack + [T])
  {
    hide Inv, Automaton.Valid;
    TopIsReadable(A, stack, STAR);
  }

  lemma ReduceColumns()
    requires Inv(A, [BASE, S, D, C, T])
    ensures Take(A, [BASE, S, D, C, T], INPUT_TOKENS[2]) == Reduced([BASE, S, D, L])
  {
    var stack := [BASE, S, D, C, T];
    TopIsReadable(A, stack, 0);
    GotoNeverMisses(A, stack, 4);
    hide Inv, Automaton.Valid;
    assert stack[..3] == [BASE, S, D] && Minors(stack[3..]) == [C.minor, T.minor];
    assert [BASE, S, D] + [L] == [BASE, S, D, L];
  }

  /** The stacks of the first seven configurations. */
  function StackAt(n: nat): seq<Entry>
    requires n <= 6
  {
    if n == 0 then [BASE] else if n == 1 then [BASE, S] else if n == 2 then [BASE, S, D]
    else if n == 3 then [BASE, S, D, C] else if n == 4 then [BASE, S, D, C, T]
    else if n == 5 then [BASE, S, D, L] else [BASE, S, D, L, F]
  }

  function InputAt(n: nat): seq<Token> {
    INPUT_TOKENS[if n == 0 then 0 else if n <= 3 then 1 else 2..]
  }

  /** The turn from each of them to the next. */
  lemma TurnAt(n: nat)
    requires n < 6 && Inv(A, StackAt(n))
    ensures Take(A, StackAt(n), InputAt(n)[0]) ==
            if n == 0 || n == 3 then Shifted(StackAt(n + 1)) else Reduced(StackAt(n + 1))
  {
    hide Inv, Automaton.Valid, Take;
    if n == 0 {
      ShiftSelect();
    } else if n == 3 {
      ShiftStar(StackAt(3));
      assert StackAt(3) + [T] == StackAt(4);
    } else if n == 4 {
      ReduceColumns();
    } else {
      EmptyRule(StackAt(n), InputAt(n)[0]);
      assert n == 1 ==> StackAt(1) + [D] == StackAt(2);
      assert n == 2 ==> StackAt(2) + [C] == StackAt(3);
      assert n == 5 ==> StackAt(5) + [F] == StackAt(6);
    }
  }

  lemma {:induction false} RunAt(n: nat)
    requires n <= 6
    ensures A.Valid() && Live(A, Initial(INPUT_TOKENS))
    ensures After(A, 5, Initial(INPUT_TOKENS), n) == Config(StackAt(n), InputAt(n), Running)
    ensures Inv(A, StackAt(n))
  {
    hide Inv, Automaton.Valid, Take, StackAt, Advance, After;
    IsValid();
    StartIsLive();
    if n == 0 {
      AfterNothing(A, 5, Initial(INPUT_TOKENS));
    } else {
      RunAt(n - 1);
      TurnAt(n - 1);
      AfterOneMore(A, 5, Initial(INPUT_TOKENS), n);
      StepAt(n - 1);
    }
  }

  lemma StartIsLive()
    requires A.Valid()
    ensures Live(A, Initial(INPUT_TOKENS)) && StackAt(0) == [BASE] && InputAt(0) == INPUT_TOKENS
  {
  }

  lemma StepAt(n: nat)
    requires n < 6 && Inv(A, StackAt(n)) && Live(A, Config(StackAt(n), InputAt(n), Running))
    requires Take(A, StackAt(n), InputAt(n)[0]) ==
             if n == 0 || n == 3 then Shifted(StackAt(n + 1)) else Reduced(StackAt(n + 1))
    ensures Advance(A, 5, Config(StackAt(n), InputAt(n), Running)) == Config(StackAt(n + 1), InputAt(n + 1), Running)
    ensures Inv(A, StackAt(n + 1))
  {
    hide Inv, Automaton.Valid, Take;
    assert |StackAt(n + 1)| <= 5;
  }

  /** On a stack of five, `SELECT *` overflows when the absent WHERE clause is reduced, with the FROM list on top:
      that list is the one value whose clean-up is missed. */
  lemma FromListIsNeverDeleted()
    ensures A.Valid() && Live(A, Initial(INPUT_TOKENS))
    ensures var last := After(A, 5, Initial(INPUT_TOKENS), 6);
            && Active(last) && Top(last.stack) == F && DestructorOf(F.major) == DeleteSrcList
            && Advance(A, 5, last).status == StackOverflow
            && CleanUps(Releases(last.stack)) == [ReleaseOf(F)] + CleanUps(ReleasedBy(A, 5, last))
  {
    hide Inv, Automaton.Valid, Take, TakeWithin, After, Advance, Releases, CleanUps, ReleasedBy, OverflowReleases;
    RunAt(6);
    var last := After(A, 5, Initial(INPUT_TOKENS), 6);
    EmptyRule(last.stack, last.input[0]);
    CleanUpMissedExactly(A, 5, last.stack, last.input[0]);
    OverflowIsReleased(A, 5, last);
  }
}
