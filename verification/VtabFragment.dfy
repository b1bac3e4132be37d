/** The arguments of CREATE VIRTUAL TABLE, by the rules of the SQL grammar without its parentheses: states with a
    wildcard entry, in which every token but a comma is taken, a keyword no less than an identifier. */
module VtabFragment {
  import opened Grammars
  import opened Automata
  import opened Runs
  import opened Engine
  import ExprListFragment

  const COMMA: nat := 26
  const KEY: nat := 79
  const ANY: nat := 96
  const INPUT: nat := 144
  const VTABARGLIST: nat := 245
  const VTABARG: nat := 246
  const VTABARGTOKEN: nat := 247

  const RULES: seq<Rule> := [
    Rule(INPUT, [{VTABARGLIST}]),
    Rule(VTABARGLIST, [{VTABARG}]),
    Rule(VTABARGLIST, [{VTABARGLIST}, {COMMA}, {VTABARG}]),
    Rule(VTABARG, []),
    Rule(VTABARG, [{VTABARG}, {VTABARGTOKEN}]),
    Rule(VTABARGTOKEN, [{ANY}])
  ]

  /** The fallback of the full grammar: keywords may be read as identifiers. */
  const G := Grammar(143, INPUT, ANY, ExprListFragment.G.fallback, RULES, {})

  const SR: nat := 5
  const R: nat := 11
  const ERROR: nat := 17
  const ACCEPT: nat := 18

  const A := Automaton(
    G, 5, SR,
    [ {Item(0, 0), Item(1, 0), Item(2, 0), Item(3, 0), Item(4, 0)},
      {Item(0, 1), Item(2, 1)},
      {Item(1, 1), Item(4, 1), Item(5, 0)},
      {Item(2, 2), Item(3, 0), Item(4, 0)},
      {Item(2, 3), Item(4, 1), Item(5, 0)} ],
    [ map[],
      map[0 := R + 0, COMMA := 3],
      map[0 := R + 1, COMMA := R + 1, ANY := SR + 5],
      map[],
      map[0 := R + 2, COMMA := R + 2, ANY := SR + 5] ],
    [ map[INPUT := ACCEPT, VTABARGLIST := 1, VTABARG := 2],
      map[],
      map[VTABARGTOKEN := SR + 4],
      map[VTABARG := 4],
      map[VTABARGTOKEN := SR + 4] ],
    [ R + 3, ERROR, ERROR, R + 3, ERROR ])

  lemma IsSized()
    ensures A.Sized()
  {
    forall c: nat | c < |G.fallback|
      ensures G.FallbackEnds(c)
    {
    }
  }

  /** What each state does on each token. */
  lemma Actions(s: nat, look: nat)
    requires s < 5 && look < 143
    ensures A.FindShift(s, look) ==
            if s == 0 || s == 3 then R + 3
            else if s == 1 then if look == 0 then R + 0 else if look == COMMA then 3 else ERROR
            else if look == 0 || look == COMMA then R + s / 2
            else SR + 5
  {
  }

  lemma ShiftsAreOk(s: nat, look: nat)
    requires s < 5 && look < 143
    ensures A.Sized() && A.ShiftOk(s, look)
  {
    IsSized();
    Actions(s, look);
    hide Automaton.Sized, Automaton.FindShift;
    assert G.Fits(COMMA, COMMA) && (look != 0 ==> G.Fits(look, ANY));
  }

  lemma GotosAreOk(s: nat, x: nat)
    requires s < 5
    ensures A.Sized() && A.GotoOk(s, x)
  {
    IsSized();
    hide Automaton.Sized;
    assert x in A.goto[s] ==> G.Fits(x, x);
  }

  lemma ClosuresAreOk(s: nat, it: Item)
    requires s < 5
    ensures A.Sized() && A.ClosureOk(s, it) && A.StartOk(it)
  {
    IsSized();
    hide Automaton.Sized;
  }

  lemma IsValid()
    ensures A.Valid()
  {
    hide Automaton.Sized, Automaton.ShiftOk, Automaton.GotoOk, Automaton.ClosureOk, Automaton.StartOk;
    IsSized();
    forall s: nat, look: nat | s < A.nState && look < G.nTerminal
      ensures A.ShiftOk(s, look)
    {
      ShiftsAreOk(s, look);
    }
    forall s: nat, x: nat | s < A.nState
      ensures A.GotoOk(s, x)
    {
      GotosAreOk(s, x);
    }
    forall s: nat, it | s < A.nState
      ensures A.ClosureOk(s, it)
    {
      ClosuresAreOk(s, it);
    }
    forall it
      ensures A.StartOk(it)
    {
      ClosuresAreOk(0, it);
    }
  }

  // --- One argument of one token, whatever the token ---

  /** The trees of the run, from the token to the list. */
  function ArgTree(tok: Token): Tree { Node(4, [Node(3, []), Node(5, [Leaf(tok)])]) }

  function StackAt(tok: Token, n: nat): seq<Entry>
    requires n <= 5
  {
    var none := Entry(2, VTABARG, Node(3, []));
    if n == 0 then [BASE]
    else if n == 1 then [BASE, none]
    else if n == 2 then [BASE, none, Entry(R + 5, tok.code, Leaf(tok))]
    else if n == 3 then [BASE, none, Entry(R + 4, VTABARGTOKEN, Node(5, [Leaf(tok)]))]
    else if n == 4 then [BASE, Entry(2, VTABARG, ArgTree(tok))]
    else [BASE, Entry(1, VTABARGLIST, Node(1, [ArgTree(tok)]))]
  }

  function InputAt(tok: Token, end: Token, n: nat): seq<Token> {
    if n <= 1 then [tok, end] else [end]
  }

  /** The rule that turn `n` reduces by, and how many entries it takes off the stack. */
  function RuleAt(n: nat): nat {
    if n == 0 then 3 else if n == 2 then 5 else if n == 3 then 4 else if n == 4 then 1 else 0
  }

  lemma LookupAt(tok: Token, end: Token, n: nat)
    requires n <= 5 && 0 < tok.code < 143 && tok.code != COMMA && end.code == 0
    ensures A.Sized() && A.IsStateno(Top(StackAt(tok, n)).stateno)
    ensures A.FindShift(Top(StackAt(tok, n)).stateno, InputAt(tok, end, n)[0].code) ==
            if n == 1 then SR + 5 else R + RuleAt(n)
  {
    IsSized();
    if n != 2 && n != 3 {
      Actions(Top(StackAt(tok, n)).stateno, InputAt(tok, end, n)[0].code);
    }
  }

  lemma ReduceAt(tok: Token, end: Token, n: nat)
    requires n <= 5 && n != 1 && 0 < tok.code < 143 && tok.code != COMMA && end.code == 0
    requires Inv(A, StackAt(tok, n))
    ensures var t := Take(A, StackAt(tok, n), InputAt(tok, end, n)[0]);
            if n < 5 then t == Reduced(StackAt(tok, n + 1)) else t == Accept(Node(0, [Node(1, [ArgTree(tok)])]))
  {
    var s := StackAt(tok, n);
    hide Inv, Automaton.Valid, Automaton.FindShift, ReduceReady, ReduceBy;
    LookupAt(tok, end, n);
    TopIsReadable(A, s, InputAt(tok, end, n)[0].code);
    ReduceUnfolds(A, s, RuleAt(n));
    HandleAt(tok, n);
    hide StackAt, Minors;
  }

  /** What turn `n` leaves below the handle, and the node it makes of the handle. */
  lemma HandleAt(tok: Token, n: nat)
    requires n <= 5 && n != 1
    ensures var s, r := StackAt(tok, n), RuleAt(n);
            var m := |s| - |RULES[r].rhs|;
            && 0 < m <= |s| && s[m - 1].stateno < 5
            && if n == 5 then Node(r, Minors(s[m..])) == Node(0, [Node(1, [ArgTree(tok)])])
               else StackAt(tok, n + 1) ==
                    s[..m] + [Entry(A.Fuse(A.goto[s[m - 1].stateno][RULES[r].lhs]), RULES[r].lhs, Node(r, Minors(s[m..])))]
  {
    var s := StackAt(tok, n);
    var m := |s| - |RULES[RuleAt(n)].rhs|;
    assert s[..m] == if n == 0 then s else if n == 2 then s[..2] else [BASE];
    assert Minors(s[m..]) == if n == 0 then [] else if n == 3 then [s[1].minor, s[2].minor] else [s[|s| - 1].minor];
  }

  lemma TurnAt(tok: Token, end: Token, n: nat)
    requires n < 5 && 0 < tok.code < 143 && tok.code != COMMA && end.code == 0
    requires Inv(A, StackAt(tok, n)) && Live(A, Config(StackAt(tok, n), InputAt(tok, end, n), Running))
    ensures Advance(A, 0, Config(StackAt(tok, n), InputAt(tok, end, n), Running))
         == Config(StackAt(tok, n + 1), InputAt(tok, end, n + 1), Running)
  {
    hide Inv, Automaton.Valid, Take, StackAt;
    if n == 1 {
      ShiftAt(tok, end);
    } else {
      ReduceAt(tok, end, n);
    }
  }

  lemma ShiftAt(tok: Token, end: Token)
    requires 0 < tok.code < 143 && tok.code != COMMA && end.code == 0 && Inv(A, StackAt(tok, 1))
    ensures Take(A, StackAt(tok, 1), tok) == Shifted(StackAt(tok, 2))
  {
    hide Inv, Automaton.Valid, Automaton.FindShift;
    LookupAt(tok, end, 1);
    TopIsReadable(A, StackAt(tok, 1), tok.code);
  }

  lemma {:induction false} RunAt(tok: Token, end: Token, n: nat)
    requires n <= 5 && 0 < tok.code < 143 && tok.code != COMMA && end.code == 0
    ensures Live(A, Initial([tok, end]))
    ensures After(A, 0, Initial([tok, end]), n) == Config(StackAt(tok, n), InputAt(tok, end, n), Running)
  {
    hide Inv, Automaton.Valid, Take, Advance, After;
    IsValid();
    InitialIsLive(A, [tok, end]);
    if n == 0 {
      AfterNothing(A, 0, Initial([tok, end]));
    } else {
      RunAt(tok, end, n - 1);
      TurnAt(tok, end, n - 1);
      AfterOneMore(A, 0, Initial([tok, end]), n);
    }
  }

  /** Any token but a comma is taken as the wildcard and accepted, though no state has an action for it. */
  lemma TakesAnyToken(tok: Token, end: Token)
    requires 0 < tok.code < 143 && tok.code != COMMA && end.code == 0
    ensures A.Valid()
    ensures After(A, 0, Initial([tok, end]), 6).status
         == Accepted(Node(0, [Node(1, [Node(4, [Node(3, []), Node(5, [Leaf(tok)])])])]))
  {
    hide Inv, Automaton.Valid, Take, After;
    IsValid();
    RunAt(tok, end, 5);
    AfterOneMore(A, 0, Initial([tok, end]), 6);
    ReduceAt(tok, end, 5);
  }

  /** So KEY is accepted as an argument, though it is a keyword that reads as an identifier elsewhere and no state has
      an action for either. */
  lemma TakesKey(text: string)
    ensures G.Fallback(KEY) == ExprListFragment.ID
    ensures forall s: nat | s < 5 :: KEY !in A.shift[s] && ExprListFragment.ID !in A.shift[s]
    ensures A.Valid() && After(A, 0, Initial([Token(KEY, text), Token(0, text)]), 6).status.Accepted?
  {
    hide Inv, Automaton.Valid, Take, After;
    TakesAnyToken(Token(KEY, text), Token(0, text));
  }
}
