/** What the semantic values on the stack own, symbol by symbol, and that the clean-up of each symbol releases it.  The
    one exception is the value of LIMIT, which no run ever has to release. */
module SemanticValues {
  import opened Grammars
  import opened Automata
  import opened Runs
  import opened PlainLr
  import opened Engine

  /** The members of the value union: plain tokens and numbers, or something that was allocated. */
  datatype Semantic = Plain | SelectPtr | Span | ExprPtr | ExprListPtr | SrcListPtr | IdListPtr | WithPtr
                    | TriggerStepPtr | TrigEvent | LimitVal

  /** The member that the reduce actions use for a symbol.  Terminals, and the symbols not listed, hold a token, a
      number or nothing. */
  function ValueOf(major: nat): Semantic {
    match major
    case 163 => SelectPtr  // select
    case 172 => Span  // term
    case 173 => Span  // expr
    case 177 => ExprListPtr  // eidlist_opt
    case 186 => ExprListPtr  // sortlist
    case 187 => ExprListPtr  // eidlist
    case 193 => SrcListPtr  // fullname
    case 194 => SelectPtr  // selectnowith
    case 195 => SelectPtr  // oneselect
    case 196 => WithPtr  // with
    case 199 => ExprListPtr  // selcollist
    case 200 => SrcListPtr  // from
    case 201 => ExprPtr  // where_opt
    case 202 => ExprListPtr  // groupby_opt
    case 203 => ExprPtr  // having_opt
    case 204 => ExprListPtr  // orderby_opt
    case 205 => LimitVal  // limit_opt
    case 206 => SelectPtr  // values
    case 207 => ExprListPtr  // nexprlist
    case 208 => ExprListPtr  // exprlist
    case 209 => ExprListPtr  // sclp
    case 211 => SrcListPtr  // seltablist
    case 212 => SrcListPtr  // stl_prefix
    case 215 => ExprPtr  // on_opt
    case 216 => IdListPtr  // using_opt
    case 217 => IdListPtr  // idlist
    case 218 => ExprListPtr  // setlist
    case 220 => IdListPtr  // idlist_opt
    case 224 => ExprListPtr  // paren_exprlist
    case 225 => ExprPtr  // case_operand
    case 226 => ExprListPtr  // case_exprlist
    case 227 => ExprPtr  // case_else
    case 232 => TriggerStepPtr  // trigger_cmd_list
    case 234 => TrigEvent  // trigger_event
    case 236 => ExprPtr  // when_clause
    case 237 => TriggerStepPtr  // trigger_cmd
    case 241 => ExprPtr  // key_opt
    case 250 => WithPtr  // wqlist
    case _ => Plain
  }

  /** What a value owns: a span its tree, a trigger event its column list, a LIMIT its two expressions. */
  function Owned(v: Semantic): seq<Destructor> {
    match v
    case Plain => []
    case SelectPtr => [DeleteSelect]
    case Span => [DeleteExpr]
    case ExprPtr => [DeleteExpr]
    case ExprListPtr => [DeleteExprList]
    case SrcListPtr => [DeleteSrcList]
    case IdListPtr => [DeleteIdList]
    case WithPtr => [DeleteWith]
    case TriggerStepPtr => [DeleteTriggerStep]
    case TrigEvent => [DeleteIdList]
    case LimitVal => [DeleteExpr, DeleteExpr]
  }

  const LIMIT_OPT: nat := 205

  /** A symbol's clean-up releases just what its value owns, for every symbol but one. */
  lemma CleanUpFitsValue(major: nat)
    ensures (if DestructorOf(major) == NoDestructor then [] else [DestructorOf(major)]) == Owned(ValueOf(major))
            <==> major != LIMIT_OPT
    ensures major < 143 || 250 < major ==> DestructorOf(major) == NoDestructor
  {
  }

  // --- Why the exception does no harm ---

  /** Wherever `x` is put on the stack, the reduce of a rule it ends is pending. */
  ghost predicate OnlyFused(a: Automaton, x: nat) {
    forall s: nat | s < |a.goto| && x in a.goto[s] :: a.minShiftReduce <= a.goto[s][x]
  }

  ghost predicate Fleeting(a: Automaton, x: nat, stack: seq<Entry>) {
    forall i | 0 <= i < |stack| && stack[i].major == x :: a.MinReduce() <= stack[i].stateno
  }

  predicate Lacks(x: nat, stack: seq<Entry>) {
    forall i | 0 <= i < |stack| :: stack[i].major != x
  }

  /** A pending entry on top is reduced at once, and there is room for what comes of it. */
  lemma PendingReduces(a: Automaton, depth: nat, stack: seq<Entry>, tok: Token)
    requires Inv(a, stack) && tok.code < a.g.nTerminal && HasRoom(depth, |stack|)
    requires a.MinReduce() <= Top(stack).stateno
    ensures TakeWithin(a, depth, stack, tok).Reduced? || TakeWithin(a, depth, stack, tok).Accept?
  {
    OnlyTopIsPending(a, stack, |stack| - 1);
    TopIsReadable(a, stack, tok.code);
    var r := Top(stack).stateno - a.MinReduce();
    assert a.FindShift(Top(stack).stateno, tok.code) == a.MinReduce() + r;
    ReduceKeeps(a, stack, r);
  }

  /** So a turn that stops, shifts or overflows finds none of `x` on the stack. */
  lemma ReducedAtOnce(a: Automaton, depth: nat, stack: seq<Entry>, tok: Token, x: nat)
    requires Inv(a, stack) && tok.code < a.g.nTerminal && Fleeting(a, x, stack) && HasRoom(depth, |stack|)
    requires var t := TakeWithin(a, depth, stack, tok); !t.Reduced? && !t.Accept?
    ensures Lacks(x, stack)
  {
    forall i | 0 <= i < |stack|
      ensures stack[i].major != x
    {
      OnlyTopIsPending(a, stack, i);
      if stack[i].major == x {
        PendingReduces(a, depth, stack, tok);
      }
    }
  }

  lemma TurnKeepsFleeting(a: Automaton, stack: seq<Entry>, tok: Token, x: nat)
    requires Inv(a, stack) && tok.code < a.g.nTerminal <= x && OnlyFused(a, x) && Fleeting(a, x, stack)
    ensures match Take(a, stack, tok)
            case Shifted(s) => Fleeting(a, x, s)
            case Reduced(s) => Fleeting(a, x, s)
            case _ => true
  {
    TopIsReadable(a, stack, tok.code);
    var act := a.FindShift(Top(stack).stateno, tok.code);
    if a.MaxShiftReduce() < act <= a.MaxReduce() {
      GotoNeverMisses(a, stack, act - a.MinReduce());
    }
  }

  /** Nothing that is released is a value of `x`. */
  ghost predicate Spares(a: Automaton, x: nat, rs: seq<Release>) {
    forall i | 0 <= i < |rs| :: (rs[i].value.Node? ==> rs[i].value.rule < a.NRule()) && a.g.Symbol(rs[i].value) != x
  }

  lemma ReleasesSpare(a: Automaton, stack: seq<Entry>, x: nat)
    requires Inv(a, stack) && Lacks(x, stack)
    ensures Spares(a, x, Releases(stack))
  {
    ReleasedOnce(stack);
    forall i | 0 <= i < |stack| - 1
      ensures var v := Releases(stack)[i].value; (v.Node? ==> v.rule < a.NRule()) && a.g.Symbol(v) != x
    {
      assert LinkOk(a, stack, |stack| - 1 - i);
      assert Releases(stack)[|stack| - 1 - (|stack| - 1 - i)] == ReleaseOf(stack[|stack| - 1 - i]);
    }
  }

  /** What the turn that shifts a token or stops the run releases, and what is freed after it. */
  lemma LastTurnSpares(a: Automaton, depth: nat, last: Config, x: nat)
    requires Live(a, last) && Active(last) && HasRoom(depth, |last.stack|) && depth != 1
    requires Fleeting(a, x, last.stack) && a.g.nTerminal <= x && !TakeWithin(a, depth, last.stack, last.input[0]).Reduced?
    ensures Spares(a, x, Releases(Advance(a, depth, last).stack))
    ensures Spares(a, x, ReleasedBy(a, depth, last))
  {
    hide Inv, Automaton.Valid, Take, Fleeting, Spares, Automaton.MinReduce, Releases, ReleasedBy;
    var s, tok := last.stack, last.input[0];
    LastTurnIs(a, depth, last);
    match TakeWithin(a, depth, s, tok) {
      case Accept(_) =>
        ReleasesNothing(a, s[..1], x);
      case Shifted(s') =>
        ReducedAtOnce(a, depth, s, tok, x);
        ShiftAddsToken(a, s, tok);
        ReleasesSpare(a, s', x);
        NothingSpares(a, x);
      case Reject =>
        ReducedAtOnce(a, depth, s, tok, x);
        ReleasesSpare(a, s, x);
        TokenSpares(a, x, tok);
      case Overflow =>
        ReducedAtOnce(a, depth, s, tok, x);
        ReleasesNothing(a, s[..1], x);
        OverflowSpares(a, depth, s, tok, x);
    }
  }

  lemma LastTurnIs(a: Automaton, depth: nat, last: Config)
    requires Live(a, last) && Active(last)
    ensures last.stack != []
    ensures var c := Advance(a, depth, last);
            match TakeWithin(a, depth, last.stack, last.input[0])
            case Shifted(s) => c.stack == s && c.status.Running? && ReleasedBy(a, depth, last) == []
            case Reduced(s) => c.stack == s && c.status.Running? && c.input == last.input
            case Accept(_) => c.stack == last.stack[..1] && ReleasedBy(a, depth, last) == []
            case Reject => c.stack == last.stack
                           && ReleasedBy(a, depth, last) == [Release(DestructorOf(last.input[0].code), Leaf(last.input[0]))]
            case Overflow => c.stack == last.stack[..1]
                             && ReleasedBy(a, depth, last) == OverflowReleases(a, last.stack, last.input[0])
  {
    assert last.stack != [];
    hide Inv, Automaton.Valid, Take, OverflowReleases;
  }

  lemma ShiftAddsToken(a: Automaton, s: seq<Entry>, tok: Token)
    requires Inv(a, s) && tok.code < a.g.nTerminal && Take(a, s, tok).Shifted?
    ensures var s' := Take(a, s, tok).stack;
            Inv(a, s') && |s'| == |s| + 1 && s'[..|s|] == s && s'[|s|].major == tok.code
  {
    hide Inv, Automaton.Valid, Automaton.FindShift;
    ShiftKeeps(a, s, tok);
  }

  lemma NothingSpares(a: Automaton, x: nat)
    ensures Spares(a, x, [])
  {
  }

  lemma SparesBoth(a: Automaton, x: nat, r: seq<Release>, s: seq<Release>)
    requires Spares(a, x, r) && Spares(a, x, s)
    ensures Spares(a, x, r + s)
  {
  }

  lemma TokenSpares(a: Automaton, x: nat, tok: Token)
    requires tok.code < a.g.nTerminal <= x
    ensures Spares(a, x, [Release(DestructorOf(tok.code), Leaf(tok))])
  {
  }

  lemma ReleasesNothing(a: Automaton, s: seq<Entry>, x: nat)
    requires |s| == 1
    ensures Releases(s) == [] && Spares(a, x, Releases(s)) && Spares(a, x, [])
  {
  }

  lemma OverflowSpares(a: Automaton, depth: nat, s: seq<Entry>, tok: Token, x: nat)
    requires Inv(a, s) && tok.code < a.g.nTerminal && Lacks(x, s) && depth != 1 && HasRoom(depth, |s|)
    requires TakeWithin(a, depth, s, tok).Overflow?
    ensures Spares(a, x, OverflowReleases(a, s, tok))
  {
    hide Inv, Automaton.Valid, Take, Spares;
    ReleasesSpare(a, s, x);
    if !Take(a, s, tok).Shifted? {
      TakeNeverOverflows(a, s, tok);
      OverflowForgetsTop(a, depth, s, tok);
      PrefixKeepsInv(a, s, |s| - 1);
      ReleasesSpare(a, s[..|s| - 1], x);
    }
  }

  lemma {:induction false} RunsKeepFleeting(a: Automaton, depth: nat, full: seq<Token>, n: nat, x: nat)
    requires a.Valid() && Readable(a, full) && OnlyFused(a, x) && a.g.nTerminal <= x
    ensures Live(a, Initial(full)) && Fleeting(a, x, After(a, depth, Initial(full), n).stack)
  {
    assert 0 < x && Fleeting(a, x, [BASE]);
    hide Inv, Automaton.Valid, Take, OnlyFused, Advance, After;
    InitialIsLive(a, full);
    if n == 0 {
      AfterNothing(a, depth, Initial(full));
    } else {
      RunsKeepFleeting(a, depth, full, n - 1, x);
      var u := After(a, depth, Initial(full), n - 1);
      AfterOneMore(a, depth, Initial(full), n);
      StoppedStays(a, depth, u);
      if Active(u) {
        TurnKeepsFleeting(a, u.stack, u.input[0], x);
        LastTurnIs(a, depth, u);
      }
    }
  }

  /** A value that is only put on the stack when a reduce is pending is never released: not by the turn that stops
      a run, not when the parser is freed after it, and not when it is freed between two tokens. */
  lemma FusedIsNeverReleased(a: Automaton, depth: nat, full: seq<Token>, n: nat, x: nat)
    requires a.Valid() && Readable(a, full) && OnlyFused(a, x) && a.g.nTerminal <= x && n > 0 && depth != 1
    ensures Live(a, Initial(full))
    ensures var last, c := After(a, depth, Initial(full), n - 1), After(a, depth, Initial(full), n);
            && (Active(last) && !c.status.Running? ==> Spares(a, x, ReleasedBy(a, depth, last) + Releases(c.stack)))
            && (c.status.Running? && c.input != last.input ==> Spares(a, x, Releases(c.stack)))
  {
    hide Inv, Automaton.Valid, Take, TakeWithin, OnlyFused, Advance, After, Fleeting, Spares, Releases, ReleasedBy;
    RunsKeepFleeting(a, depth, full, n - 1, x);
    AfterOneMore(a, depth, Initial(full), n);
    if depth > 0 { StaysInBounds(a, depth, Initial(full), n - 1); }
    var last := After(a, depth, Initial(full), n - 1);
    StoppedStays(a, depth, last);
    if Active(last) {
      LastTurnIs(a, depth, last);
      if !TakeWithin(a, depth, last.stack, last.input[0]).Reduced? {
        LastTurnSpares(a, depth, last, x);
        SparesBoth(a, x, ReleasedBy(a, depth, last), Releases(Advance(a, depth, last).stack));
      }
    }
  }
}
