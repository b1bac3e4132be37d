/** The expression-list corner of the SQL grammar as a concrete automaton: it meets the validity
    conditions, so the theorems about valid automata are not about nothing. */
module ExprListFragment {
  import opened Grammars
  import opened Automata
  import opened Runs
  import opened Termination
  import opened PackedTables

  const COMMA: nat := 26
  const ID: nat := 55
  const INDEXED: nat := 56
  const ABORT: nat := 57
  const INTEGER: nat := 134
  const INPUT: nat := 144
  const TERM: nat := 172
  const EXPR: nat := 173
  const NEXPRLIST: nat := 207
  const EXPRLIST: nat := 208

  /** The keywords that may be read as identifiers. */
  predicate FallsBackToId(c: nat) {
    || 2 <= c <= 5 || 7 <= c <= 9 || 11 <= c <= 14 || c == 18 || c == 21 || c == 25 || c == 30 || c == 31
    || 57 <= c <= 95
  }

  const RULES: seq<Rule> := [
    Rule(INPUT, [{EXPRLIST}]),
    Rule(EXPRLIST, []),
    Rule(EXPRLIST, [{NEXPRLIST}]),
    Rule(NEXPRLIST, [{NEXPRLIST}, {COMMA}, {EXPR}]),
    Rule(NEXPRLIST, [{EXPR}]),
    Rule(EXPR, [{ID, INDEXED}]),
    Rule(EXPR, [{TERM}]),
    Rule(TERM, [{INTEGER}])
  ]

  /** `expr ::= term` is optimised out, as it is in the full grammar. */
  const G := Grammar(143, INPUT, 96, seq(96, c requires 0 <= c < 96 => if FallsBackToId(c) then ID else 0), RULES, {6})

  const SR: nat := 8
  const R: nat := 16
  const ERROR: nat := 24
  const ACCEPT: nat := 25

  const CLOSURE := {Item(5, 0), Item(6, 0), Item(7, 0)}

  const A := Automaton(
    G, 4, SR,
    [ {Item(0, 0), Item(1, 0), Item(2, 0), Item(3, 0), Item(4, 0)} + CLOSURE,
      {Item(0, 1)},
      {Item(2, 1), Item(3, 1)},
      {Item(3, 2)} + CLOSURE ],
    [ map[ID := SR + 5, INDEXED := SR + 5, INTEGER := SR + 7],
      map[0 := R + 0],
      map[COMMA := 3],
      map[ID := SR + 5, INDEXED := SR + 5, INTEGER := SR + 7] ],
    [ map[INPUT := ACCEPT, EXPRLIST := 1, NEXPRLIST := 2, EXPR := SR + 4, TERM := SR + 4],
      map[],
      map[],
      map[EXPR := SR + 3, TERM := SR + 3] ],
    [ R + 1, ERROR, R + 2, ERROR ])

  lemma IsWellFormed()
    ensures G.WellFormed() && A.Sized()
  {
    forall c: nat | c < |G.fallback|
      ensures G.FallbackEnds(c)
    {
    }
  }

  lemma TermStandsForExpr()
    ensures G.Fits(TERM, EXPR)
  {
    assert 6 in G.elided && G.rules[6].lhs == EXPR && TERM in G.rules[6].rhs[0];
    assert G.StandsFor(TERM, TERM, 0);
    assert |G.elided| == 1;
  }

  lemma OperandShiftsAreOk(s: nat, look: nat)
    requires (s == 0 || s == 3) && look < 143
    ensures A.Sized() && A.ShiftOk(s, look)
  {
    IsWellFormed();
    var act := A.FindShift(s, look);
    if act <= A.MaxShiftReduce() {
      OperandStepsAreOk(s, look, A.Fuse(act));
      assert act == SR + (if look == INTEGER then 7 else 5);
      hide Automaton.StepsFrom;
    } else {
      assert act == A.dflt[s];
    }
  }

  /** Where an operand may start, what is shifted is the one symbol of its rule. */
  lemma OperandStepsAreOk(s: nat, look: nat, to: nat)
    requires to == R + if look == INTEGER then 7 else 5
    requires (s == 0 || s == 3) && (look == ID || look == INDEXED || G.Fallback(look) == ID || look == INTEGER)
    ensures A.Sized()
    ensures forall it :: A.StepsFrom(s, look, to, it)
  {
    IsWellFormed();
    assert look in {ID, INDEXED, INTEGER} ==> G.Fits(look, look);
    assert G.Fallback(look) == ID ==> G.Fits(look, ID);
  }

  lemma OperatorShiftsAreOk(s: nat, look: nat)
    requires (s == 1 || s == 2) && look < 143
    ensures A.Sized() && A.ShiftOk(s, look)
  {
    IsWellFormed();
    assert G.Fits(COMMA, COMMA);
  }

  lemma GotosAreOk(s: nat, x: nat)
    requires s < 4
    ensures A.Sized() && A.GotoOk(s, x)
  {
    IsWellFormed();
    TermStandsForExpr();
    assert G.Fits(EXPR, EXPR) && G.Fits(NEXPRLIST, NEXPRLIST) && G.Fits(EXPRLIST, EXPRLIST);
  }

  lemma IsValid()
    ensures A.Valid()
  {
    IsWellFormed();
    forall s: nat, look: nat | s < A.nState && look < G.nTerminal
      ensures A.ShiftOk(s, look)
    {
      if s == 0 || s == 3 {
        OperandShiftsAreOk(s, look);
      } else {
        OperatorShiftsAreOk(s, look);
      }
    }
    forall s: nat, x: nat | s < A.nState
      ensures A.GotoOk(s, x)
    {
      GotosAreOk(s, x);
    }
  }

  // --- The same automaton compressed: four shift rows and two goto rows in 85 slots ---

  const NOCODE: nat := 252

  function Tag(i: nat): nat {
    if i == 0 then 0
    else if i == 1 then COMMA
    else if i == 4 then INPUT
    else if i == 5 then ID
    else if i == 6 then INDEXED
    else if i == 7 then TERM
    else if i == 8 then EXPR
    else if i == 32 then TERM
    else if i == 33 then EXPR
    else if i == 67 then NEXPRLIST
    else if i == 68 then EXPRLIST
    else if i == 84 then INTEGER
    else NOCODE
  }

  function ActionAt(i: nat): nat {
    if i == 0 then R + 0
    else if i == 1 then 3
    else if i == 4 then ACCEPT
    else if i == 5 || i == 6 then SR + 5
    else if i == 7 || i == 8 then SR + 3
    else if i == 32 || i == 33 then SR + 4
    else if i == 67 then 2
    else if i == 68 then 1
    else if i == 84 then SR + 7
    else ACCEPT + 1
  }

  const TABLE := Packed(
    seq(85, i requires 0 <= i < 85 => ActionAt(i)),
    seq(85, i requires 0 <= i < 85 => Tag(i)),
    [-50, 0, -25, -50],
    [-140, -200, -200, -165],
    [ R + 1, ERROR, R + 2, ERROR ],
    -50, 0, -200)

  lemma RowsAreOwn(s: nat, x: nat)
    requires s < 4 && x < 143
    ensures TABLE.OwnRow(A, s, x)
  {
  }

  lemma ShiftRowsAreStored(s: nat)
    requires s < 4
    ensures TABLE.StoresShift(A, s)
  {
  }

  lemma GotoRowsAreStored(s: nat)
    requires s < 4
    ensures TABLE.StoresGoto(A, s)
  {
  }

  lemma IsPacked()
    ensures TABLE.Packs(A) && TABLE.GuardsSuffice(A)
  {
    IsWellFormed();
    forall s: nat, x: nat | s < A.nState && x < G.nTerminal
      ensures TABLE.OwnRow(A, s, x)
    {
      RowsAreOwn(s, x);
    }
    forall s: nat | s < A.nState
      ensures TABLE.StoresShift(A, s) && TABLE.StoresGoto(A, s)
    {
      ShiftRowsAreStored(s);
      GotoRowsAreStored(s);
    }
  }

  /** No expression-list nonterminal derives itself. */
  const RANKING := Ranking({INPUT, EXPRLIST}, map[TERM := 0, EXPR := 1, NEXPRLIST := 2, EXPRLIST := 3, INPUT := 4], 4)

  lemma StandIns(x: nat, c: nat)
    ensures G.Fits(x, c) && 143 <= x ==> x == c || (x == TERM && c == EXPR)
    ensures G.Fits(x, c) && x < 143 ==> c < 143
  {
    assert |G.elided| == 1;
  }

  lemma IsAcyclic()
    ensures RANKING.Certifies(G)
  {
    forall r: nat | r < |G.rules|
      ensures RANKING.NullableOk(G, r)
    {
      NothingElseVanishes(r);
    }
    forall r: nat, i: nat, x: nat | r < |G.rules| && i < |G.rules[r].rhs|
      ensures RANKING.RankOk(G, r, i, x)
    {
      RankRises(r, i, x);
    }
  }

  lemma RankRises(r: nat, i: nat, x: nat)
    requires r < 8 && i < |RULES[r].rhs|
    ensures RANKING.RankOk(G, r, i, x)
  {
    hide Grammar.Fits, Ranking.Vanishing;
    if G.Matches(x, G.rules[r].rhs[i]) && x >= 143 {
      var c :| c in G.rules[r].rhs[i] && G.Fits(x, c);
      StandIns(x, c);
      if r == 3 {
        Solid(if i == 1 then 2 else 1);
      }
    }
  }

  /** The positions of `nexprlist ::= nexprlist COMMA expr` do not vanish. */
  lemma Solid(j: nat)
    requires j == 1 || j == 2
    ensures !RANKING.Vanishing(G, RULES[3].rhs[j])
  {
    StandIns(INPUT, if j == 1 then COMMA else EXPR);
    StandIns(EXPRLIST, if j == 1 then COMMA else EXPR);
  }

  lemma NothingElseVanishes(r: nat)
    requires r < 8
    ensures RANKING.NullableOk(G, r)
  {
    if r == 3 {
      Solid(1);
    } else if 4 <= r {
      forall x, c | x in RANKING.nullable && c in RULES[r].rhs[0]
        ensures !G.Fits(x, c)
      {
        StandIns(x, c);
      }
      assert !RANKING.Vanishing(G, G.rules[r].rhs[0]);
    }
  }

  // --- One accepted run: a keyword read as an identifier ---

  /** One turn on top of the base, given the action the table calls for. */
  lemma ShiftAtBase(tok: Token)
    requires A.Valid() && tok.code == ABORT
    ensures Inv(A, [BASE]) && Take(A, [BASE], tok) == Shifted([BASE, Entry(R + 5, ABORT, Leaf(tok))])
  {
    assert G.Fallback(ABORT) == ID;
  }

  lemma ReduceOne(e: Entry, r: nat, e': Entry, tok: Token)
    requires Inv(A, [BASE, e]) && tok.code == 0 && r < 8 && |RULES[r].rhs| == 1
    requires e.stateno < 4 || R <= e.stateno
    requires A.FindShift(e.stateno, 0) == R + r && RULES[r].lhs in A.goto[0] && A.goto[0][RULES[r].lhs] < R
    requires e' == Entry(A.Fuse(A.goto[0][RULES[r].lhs]), RULES[r].lhs, Node(r, [e.minor]))
    ensures Inv(A, [BASE, e']) && Take(A, [BASE, e], tok) == Reduced([BASE, e'])
  {
    var stack := [BASE, e];
    TopIsReadable(A, stack, 0);
    GotoNeverMisses(A, stack, r);
    ReduceKeeps(A, stack, r);
    assert stack[..1] == [BASE] && Minors(stack[1..]) == [e.minor] && [BASE] + [e'] == [BASE, e'];
  }

  lemma AcceptLast(e: Entry, tok: Token)
    requires Inv(A, [BASE, e]) && tok.code == 0 && e.stateno == 1
    ensures Take(A, [BASE, e], tok) == Accept(Node(0, [e.minor]))
  {
    var stack := [BASE, e];
    TopIsReadable(A, stack, 0);
    GotoNeverMisses(A, stack, 0);
    assert stack[..1] == [BASE] && Minors(stack[1..]) == [e.minor];
  }

  /** The entry above the base after each of the four turns that stack something. */
  function Above(tok: Token, n: nat): Entry
    requires 1 <= n <= 4
  {
    var t1 := Leaf(tok);
    var t2 := Node(5, [t1]);
    var t3 := Node(4, [t2]);
    var t4 := Node(2, [t3]);
    if n == 1 then Entry(R + 5, ABORT, t1) else if n == 2 then Entry(R + 4, EXPR, t2)
    else if n == 3 then Entry(2, NEXPRLIST, t3) else Entry(1, EXPRLIST, t4)
  }

  lemma KeywordTurns(tok: Token, end: Token)
    requires tok.code == ABORT && end.code == 0 && A.Valid()
    ensures Inv(A, [BASE]) && Take(A, [BASE], tok) == Shifted([BASE, Above(tok, 1)])
    ensures forall n: nat | 1 <= n <= 4 :: Inv(A, [BASE, Above(tok, n)])
    ensures forall n: nat | 1 <= n <= 3 :: Take(A, [BASE, Above(tok, n)], end) == Reduced([BASE, Above(tok, n + 1)])
    ensures Take(A, [BASE, Above(tok, 4)], end) == Accept(Node(0, [Above(tok, 4).minor]))
  {
    ShiftAtBase(tok);
    ShiftKeeps(A, [BASE], tok);
    ReduceOne(Above(tok, 1), 5, Above(tok, 2), end);
    ReduceOne(Above(tok, 2), 4, Above(tok, 3), end);
    ReduceOne(Above(tok, 3), 2, Above(tok, 4), end);
    AcceptLast(Above(tok, 4), end);
    hide Inv, Take, Automaton.Valid;
  }

  lemma AcceptsAKeyword(tok: Token, end: Token)
    requires tok.code == ABORT && end.code == 0
    ensures A.Valid()
    ensures After(A, 100, Initial([tok, end]), 5).status
         == Accepted(Node(0, [Node(2, [Node(4, [Node(5, [Leaf(tok)])])])]))
  {
    hide Inv, Take, Automaton.Valid, After, Ranking.Certifies;
    IsValid();
    KeywordTurns(tok, end);
    var c := Initial([tok, end]);
    assert Live(A, c);
    assert Advance(A, 100, c) == Config([BASE, Above(tok, 1)], [end], Running);
    hide Advance;
    AfterNothing(A, 100, c);
    AfterOneMore(A, 100, c, 1);
    ReduceTurn(c, 1, end, Above(tok, 1), Above(tok, 2));
    ReduceTurn(c, 2, end, Above(tok, 2), Above(tok, 3));
    ReduceTurn(c, 3, end, Above(tok, 3), Above(tok, 4));
    AfterOneMore(A, 100, c, 5);
    AcceptTurn(After(A, 100, c, 4), end);
  }

  lemma ReduceTurn(c: Config, n: nat, end: Token, e: Entry, e': Entry)
    requires Live(A, c) && After(A, 100, c, n) == Config([BASE, e], [end], Running)
    requires end.code == 0 && Inv(A, [BASE, e]) && Take(A, [BASE, e], end) == Reduced([BASE, e'])
    ensures After(A, 100, c, n + 1) == Config([BASE, e'], [end], Running)
  {
    hide Inv, Take, Automaton.Valid, After;
    AfterOneMore(A, 100, c, n + 1);
  }

  lemma AcceptTurn(c: Config, end: Token)
    requires Live(A, c) && c.status == Running && c.input == [end] && end.code == 0 && Take(A, c.stack, end).Accept?
    ensures Advance(A, 100, c).status == Accepted(Take(A, c.stack, end).tree)
  {
    hide Inv, Take, Automaton.Valid;
  }
}
