/** Whole runs: a stack, the tokens still to come, and a status.  Depth 0 stands for the
    unbounded stack. */
module Runs {
  import opened Grammars
  import opened Automata

  datatype Status = Running | Accepted(tree: Tree) | SyntaxError | StackOverflow

  datatype Config = Config(stack: seq<Entry>, input: seq<Token>, status: Status)

  ghost predicate Readable(a: Automaton, input: seq<Token>) {
    forall k | 0 <= k < |input| :: input[k].code < a.g.nTerminal
  }

  /** Configurations the engine can be in between turns. */
  ghost predicate Live(a: Automaton, c: Config) {
    Inv(a, c.stack) && Readable(a, c.input)
  }

  predicate HasRoom(depth: nat, height: nat) {
    depth == 0 || height <= depth
  }

  /** One turn on a stack of at most `depth` entries: the unbounded turn, unless it needs more. */
  function TakeWithin(a: Automaton, depth: nat, stack: seq<Entry>, tok: Token): Turn
    requires Inv(a, stack) && tok.code < a.g.nTerminal
  {
    var t := Take(a, stack, tok);
    if (t.Shifted? || t.Reduced?) && !HasRoom(depth, |t.stack|) then Overflow else t
  }

  predicate Active(c: Config) {
    c.status.Running? && c.input != []
  }

  /** One turn of the loop; a configuration that has stopped stays as it is. */
  function Advance(a: Automaton, depth: nat, c: Config): (c': Config)
    requires Live(a, c)
    ensures Live(a, c')
  {
    if !Active(c) then c
    else
      BottomIsLive(a, c.stack);
      match TakeWithin(a, depth, c.stack, c.input[0])
      case Shifted(s) => ShiftKeeps(a, c.stack, c.input[0]); c.(stack := s, input := c.input[1..])
      case Reduced(s) => ReducedKeeps(a, c.stack, c.input[0]); c.(stack := s)
      case Accept(t) => c.(stack := c.stack[..1], status := Accepted(t))
      case Reject => c.(status := SyntaxError)
      case Overflow => c.(stack := c.stack[..1], status := StackOverflow)
  }

  lemma BottomIsLive(a: Automaton, stack: seq<Entry>)
    requires Inv(a, stack)
    ensures Inv(a, stack[..1])
    ensures StackYield(stack[..1]) == []
  {
    PrefixKeepsInv(a, stack, 1);
    assert stack[..1] == [BASE];
    BaseYield();
  }

  lemma ReducedKeeps(a: Automaton, stack: seq<Entry>, tok: Token)
    requires Inv(a, stack) && tok.code < a.g.nTerminal && Take(a, stack, tok).Reduced?
    ensures var s := Take(a, stack, tok).stack; Inv(a, s) && StackYield(s) == StackYield(stack) && 2 <= |s| <= |stack| + 1
  {
    TopIsReadable(a, stack, tok.code);
    ReduceKeeps(a, stack, a.FindShift(Top(stack).stateno, tok.code) - a.MinReduce());
  }

  lemma AcceptKeeps(a: Automaton, stack: seq<Entry>, tok: Token)
    requires Inv(a, stack) && tok.code < a.g.nTerminal && Take(a, stack, tok).Accept?
    ensures var t := Take(a, stack, tok).tree;
            a.g.Instance(t) && a.g.Symbol(t) == a.g.start && Yield(t) == StackYield(stack)
    ensures tok.code == 0
  {
    assert a.Valid() && stack != [];
    hide Inv, Automaton.Valid, Automaton.FindShift, ReduceReady, ReduceBy, Yield, StackYield;
    TopIsReadable(a, stack, tok.code);
    ReduceKeeps(a, stack, a.FindShift(Top(stack).stateno, tok.code) - a.MinReduce());
    AcceptOnlyAtEnd(a, stack, tok);
  }

  function After(a: Automaton, depth: nat, c: Config, n: nat): (c': Config)
    requires Live(a, c)
    ensures Live(a, c')
  {
    if n == 0 then c else Advance(a, depth, After(a, depth, c, n - 1))
  }

  lemma {:induction false} AfterAdds(a: Automaton, depth: nat, c: Config, m: nat, n: nat)
    requires Live(a, c)
    ensures After(a, depth, After(a, depth, c, m), n) == After(a, depth, c, m + n)
  {
    hide Advance;
    if n > 0 {
      AfterAdds(a, depth, c, m, n - 1);
    }
  }

  function Initial(input: seq<Token>): Config {
    Config([BASE], input, Running)
  }

  // --- Soundness over whole runs ---

  /** Bookkeeping for a run over `full`: nothing read is lost or invented. */
  ghost predicate Accounts(a: Automaton, full: seq<Token>, c: Config) {
    && Live(a, c)
    && match c.status
       case Accepted(t) => a.g.Instance(t) && a.g.Symbol(t) == a.g.start && Yield(t) + c.input == full
                           && |c.input| > 0 && c.input[0].code == 0
       case StackOverflow => |c.stack| == 1 && c.input != [] && Ends(full, c.input)
       case _ => StackYield(c.stack) + c.input == full
  }

  predicate Ends(full: seq<Token>, rest: seq<Token>) {
    |rest| <= |full| && full[|full| - |rest|..] == rest
  }

  lemma AdvanceAccounts(a: Automaton, depth: nat, full: seq<Token>, c: Config)
    requires Accounts(a, full, c)
    ensures Accounts(a, full, Advance(a, depth, c))
  {
    if Active(c) {
      var tok := c.input[0];
      assert c.input == [tok] + c.input[1..];
      match TakeWithin(a, depth, c.stack, tok) {
        case Shifted(s) => ShiftKeeps(a, c.stack, tok);
        case Reduced(s) => ReducedKeeps(a, c.stack, tok);
        case Accept(t) => AcceptKeeps(a, c.stack, tok);
        case Reject =>
        case Overflow =>
      }
    }
  }

  /** Turn by turn, on a stack of any depth, the trees on the stack spell exactly the tokens shifted. */
  lemma {:induction false} RunsAccount(a: Automaton, depth: nat, full: seq<Token>, n: nat)
    requires a.Valid() && Readable(a, full)
    ensures Accounts(a, full, After(a, depth, Initial(full), n))
  {
    if n == 0 {
      BottomIsLive(a, [BASE]);
      assert [BASE][..1] == [BASE];
    } else {
      RunsAccount(a, depth, full, n - 1);
      AdvanceAccounts(a, depth, full, After(a, depth, Initial(full), n - 1));
    }
  }

  /** A run that overflows did so from a full stack whose trees spell what was read; nothing is read after that. */
  lemma {:induction false} OverflowAccounts(a: Automaton, depth: nat, full: seq<Token>, n: nat) returns (m: nat)
    requires a.Valid() && Readable(a, full) && depth > 0
    requires After(a, depth, Initial(full), n).status.StackOverflow?
    ensures m < n
    ensures var u := After(a, depth, Initial(full), m);
            Active(u) && |u.stack| == depth && StackYield(u.stack) + u.input == full
            && u.input == After(a, depth, Initial(full), n).input
  {
    hide Advance, Inv, Automaton.Valid, Accounts, After, Readable, StackYield;
    InitialIsLive(a, full);
    AfterNothing(a, depth, Initial(full));
    AfterOneMore(a, depth, Initial(full), n);
    var u := After(a, depth, Initial(full), n - 1);
    if u.status.StackOverflow? {
      StoppedStays(a, depth, u);
      m := OverflowAccounts(a, depth, full, n - 1);
    } else {
      m := n - 1;
      RunsAccount(a, depth, full, m);
      StaysInBounds(a, depth, Initial(full), m);
      OverflowIsFull(a, depth, u);
      RunningAccounts(a, full, u);
    }
  }

  lemma InitialIsLive(a: Automaton, full: seq<Token>)
    requires a.Valid() && Readable(a, full)
    ensures Live(a, Initial(full))
  {
  }

  lemma RunningAccounts(a: Automaton, full: seq<Token>, u: Config)
    requires Accounts(a, full, u) && u.status.Running?
    ensures StackYield(u.stack) + u.input == full
  {
  }

  lemma OverflowIsFull(a: Automaton, depth: nat, u: Config)
    requires Live(a, u) && depth > 0 && |u.stack| <= depth && !u.status.StackOverflow?
    requires Advance(a, depth, u).status.StackOverflow?
    ensures Active(u) && |u.stack| == depth && Advance(a, depth, u).input == u.input
  {
    TakeNeverOverflows(a, u.stack, u.input[0]);
    if Take(a, u.stack, u.input[0]).Shifted? {
      ShiftKeeps(a, u.stack, u.input[0]);
    } else {
      ReducedKeeps(a, u.stack, u.input[0]);
    }
  }

  lemma {:induction false} StaysInBounds(a: Automaton, depth: nat, c: Config, n: nat)
    requires Live(a, c) && depth > 0 && |c.stack| <= depth
    ensures |After(a, depth, c, n).stack| <= depth
  {
    hide Advance;
    if n > 0 {
      StaysInBounds(a, depth, c, n - 1);
      TurnStaysInBounds(a, depth, After(a, depth, c, n - 1));
    }
  }

  lemma TurnStaysInBounds(a: Automaton, depth: nat, c: Config)
    requires Live(a, c) && depth > 0 && |c.stack| <= depth
    ensures |Advance(a, depth, c).stack| <= depth
  {
    hide Take;
  }

  /** LR soundness: if the run over a token string and an end marker accepts, after any number of
      turns and with any stack depth, then the tree's yield is that whole string and the grammar
      derives it from the start symbol, up to fallback and wildcard. */
  lemma AcceptedIsSentence(a: Automaton, depth: nat, toks: seq<Token>, end: Token, n: nat)
    requires a.Valid() && Readable(a, toks) && (forall k | 0 <= k < |toks| :: toks[k].code != 0) && end.code == 0
    requires After(a, depth, Initial(toks + [end]), n).status.Accepted?
    ensures Yield(After(a, depth, Initial(toks + [end]), n).status.tree) == toks
    ensures Sentence(a.g, a.g.start, toks)
  {
    var full := toks + [end];
    RunsAccount(a, depth, full, n);
    var c := After(a, depth, Initial(full), n);
    var t := c.status.tree;
    assert full[|Yield(t)|] == c.input[0];
    assert Yield(t) == full[..|Yield(t)|] == toks;
    TreeIsDerivation(a.g, t, a.g.start);
  }

  /** A run that is still on its first token does not look at the tokens behind it. */
  lemma {:induction false} RestIsUnread(a: Automaton, depth: nat, c: Config, rest: seq<Token>, n: nat)
    requires Live(a, c) && Readable(a, rest)
    requires n > 0 ==> Active(After(a, depth, c, n - 1))
    ensures Live(a, c.(input := c.input + rest))
    ensures var c' := After(a, depth, c, n);
            After(a, depth, c.(input := c.input + rest), n) == c'.(input := c'.input + rest)
  {
    hide TakeWithin, Inv, Advance, After;
    if n > 0 {
      var u := After(a, depth, c, n - 1);
      if n > 1 {
        AfterOneMore(a, depth, c, n - 1);
        StoppedStays(a, depth, After(a, depth, c, n - 2));
      }
      RestIsUnread(a, depth, c, rest, n - 1);
      RestIsUnreadByTurn(a, depth, u, rest);
      AfterOneMore(a, depth, c, n);
      AfterOneMore(a, depth, c.(input := c.input + rest), n);
    } else {
      AfterNothing(a, depth, c);
      AfterNothing(a, depth, c.(input := c.input + rest));
    }
  }

  lemma AfterNothing(a: Automaton, depth: nat, c: Config)
    requires Live(a, c)
    ensures After(a, depth, c, 0) == c
  {
  }

  lemma AfterOneMore(a: Automaton, depth: nat, c: Config, n: nat)
    requires Live(a, c) && n > 0
    ensures After(a, depth, c, n) == Advance(a, depth, After(a, depth, c, n - 1))
  {
    hide Advance;
  }

  lemma RestIsUnreadByTurn(a: Automaton, depth: nat, u: Config, rest: seq<Token>)
    requires Live(a, u) && Readable(a, rest) && Active(u)
    ensures Live(a, u.(input := u.input + rest))
    ensures var u' := Advance(a, depth, u);
            Advance(a, depth, u.(input := u.input + rest)) == u'.(input := u'.input + rest)
  {
    hide TakeWithin, Inv;
    assert (u.input + rest)[0] == u.input[0] && (u.input + rest)[1..] == u.input[1..] + rest;
  }

  // --- The bounded stack refines the unbounded one ---

  ghost predicate StaysWithin(a: Automaton, depth: nat, c: Config, n: nat)
    requires Live(a, c)
  {
    forall k: nat | k <= n :: HasRoom(depth, |After(a, 0, c, k).stack|)
  }

  /** While the unbounded run stays within the depth the two runs are the same; once it has needed
      one entry more the bounded run has overflowed, and never otherwise. */
  lemma {:induction false} BoundedRefinesUnbounded(a: Automaton, depth: nat, c: Config, n: nat)
    requires Live(a, c) && HasRoom(depth, |c.stack|) && !c.status.StackOverflow?
    ensures StaysWithin(a, depth, c, n) ==> After(a, depth, c, n) == After(a, 0, c, n)
    ensures StaysWithin(a, depth, c, n) <==> !After(a, depth, c, n).status.StackOverflow?
  {
    hide Advance;
    if n == 0 {
      assert After(a, 0, c, 0) == c;
    } else {
      BoundedRefinesUnbounded(a, depth, c, n - 1);
      UnboundedNeverOverflows(a, c, n - 1);
      var u, b := After(a, 0, c, n - 1), After(a, depth, c, n - 1);
      if StaysWithin(a, depth, c, n - 1) {
        assert HasRoom(depth, |After(a, 0, c, n - 1).stack|);
        StepRefines(a, depth, u);
      } else {
        StoppedStays(a, depth, b);
      }
    }
  }

  lemma StoppedStays(a: Automaton, depth: nat, c: Config)
    requires Live(a, c)
    ensures !Active(c) ==> Advance(a, depth, c) == c
  {
  }

  lemma StepRefines(a: Automaton, depth: nat, u: Config)
    requires Live(a, u) && HasRoom(depth, |u.stack|) && !u.status.StackOverflow?
    ensures HasRoom(depth, |Advance(a, 0, u).stack|) ==> Advance(a, depth, u) == Advance(a, 0, u)
    ensures HasRoom(depth, |Advance(a, 0, u).stack|) <==> !Advance(a, depth, u).status.StackOverflow?
  {
    if Active(u) {
      TakeNeverOverflows(a, u.stack, u.input[0]);
    }
  }

  lemma {:induction false} UnboundedNeverOverflows(a: Automaton, c: Config, n: nat)
    requires Live(a, c) && !c.status.StackOverflow?
    ensures !After(a, 0, c, n).status.StackOverflow?
  {
    if n > 0 {
      UnboundedNeverOverflows(a, c, n - 1);
      var u := After(a, 0, c, n - 1);
      if Active(u) {
        TakeNeverOverflows(a, u.stack, u.input[0]);
      }
    }
  }

  lemma TakeNeverOverflows(a: Automaton, stack: seq<Entry>, tok: Token)
    requires Inv(a, stack) && tok.code < a.g.nTerminal
    ensures !Take(a, stack, tok).Overflow?
  {
    TopIsReadable(a, stack, tok.code);
  }
}
