/** The textbook shift/reduce machine, without fused actions: a shift-reduce of rule `r` becomes a
    shift to an extra state whose only action is to reduce by `r`. */
module PlainLr {
  import opened Grammars
  import opened Automata
  import opened Runs

  datatype Action = Push(state: nat) | ReduceRule(rule: nat) | AcceptInput | Error

  /** The extra state that only reduces by rule `r`. */
  function ReduceState(a: Automaton, r: nat): nat {
    a.nState + r
  }

  function Target(a: Automaton, act: nat): nat
    requires act < a.nState || a.minShiftReduce <= act
  {
    if act < a.nState then act else ReduceState(a, act - a.minShiftReduce)
  }

  function ActionOn(a: Automaton, s: nat, look: nat): Action
    requires s < a.nState ==> s < |a.shift| == |a.dflt|
  {
    if a.nState <= s then ReduceRule(s - a.nState)
    else
      var act := FirstIn(a.shift[s], a.g.Candidates(look), a.dflt[s]);
      if act < a.nState || a.minShiftReduce <= act <= a.MaxShiftReduce() then Push(Target(a, act))
      else if a.MinReduce() <= act <= a.MaxReduce() then ReduceRule(act - a.MinReduce())
      else Error
  }

  function GotoOn(a: Automaton, s: nat, x: nat): Action {
    if s < |a.goto| && x in a.goto[s] then
      var act := a.goto[s][x];
      if act < a.nState || a.minShiftReduce <= act <= a.MaxShiftReduce() then Push(Target(a, act))
      else if act == a.AcceptAction() then AcceptInput
      else Error
    else Error
  }

  function PlainReduce(a: Automaton, stack: seq<Entry>, r: nat): Turn {
    if r < a.NRule() && a.g.NRhs(r) < |stack| then
      var keep := stack[..|stack| - a.g.NRhs(r)];
      var node := Node(r, Minors(stack[|stack| - a.g.NRhs(r)..]));
      match GotoOn(a, Top(keep).stateno, a.g.LhsOf(r))
      case Push(s) => Reduced(keep + [Entry(s, a.g.LhsOf(r), node)])
      case AcceptInput => Accept(node)
      case _ => Reject
    else Reject
  }

  /** One turn of the textbook machine.  It never looks inside a state number. */
  function PlainTurn(a: Automaton, stack: seq<Entry>, tok: Token): Turn
    requires |stack| > 0 && (Top(stack).stateno < a.nState ==> Top(stack).stateno < |a.shift| == |a.dflt|)
  {
    match ActionOn(a, Top(stack).stateno, tok.code)
    case Push(s) => Shifted(stack + [Entry(s, tok.code, Leaf(tok))])
    case ReduceRule(r) => PlainReduce(a, stack, r)
    case _ => Reject
  }

  function Unfuse(a: Automaton, e: Entry): Entry {
    if a.MinReduce() <= e.stateno then e.(stateno := ReduceState(a, e.stateno - a.MinReduce())) else e
  }

  function UnfuseAll(a: Automaton, es: seq<Entry>): (fs: seq<Entry>)
    ensures |fs| == |es|
    ensures forall i | 0 <= i < |es| :: fs[i] == Unfuse(a, es[i])
  {
    seq(|es|, i requires 0 <= i < |es| => Unfuse(a, es[i]))
  }

  function UnfuseTurn(a: Automaton, t: Turn): Turn {
    match t
    case Shifted(s) => Shifted(UnfuseAll(a, s))
    case Reduced(s) => Reduced(UnfuseAll(a, s))
    case _ => t
  }

  /** In a reachable stack only the top entry may hold a pending reduce, and its rule consumes it. */
  lemma OnlyTopIsPending(a: Automaton, stack: seq<Entry>, i: nat)
    requires Inv(a, stack) && i < |stack|
    ensures i < |stack| - 1 ==> stack[i].stateno < a.nState
    ensures a.IsStateno(stack[i].stateno)
    ensures a.MinReduce() <= stack[i].stateno ==> i == |stack| - 1 && 0 < a.g.NRhs(stack[i].stateno - a.MinReduce()) <= i
  {
    assert i < |stack| - 1 ==> LinkOk(a, stack, i + 1);
    assert i > 0 ==> LinkOk(a, stack, i);
    if a.MinReduce() <= stack[i].stateno {
      var r := stack[i].stateno - a.MinReduce();
      ItemDescends(a, stack, i, Item(r, a.g.NRhs(r)), a.g.NRhs(r));
    }
  }

  lemma UnfuseReduce(a: Automaton, stack: seq<Entry>, r: nat)
    requires ReduceReady(a, stack, r)
    ensures PlainReduce(a, UnfuseAll(a, stack), r) == UnfuseTurn(a, ReduceBy(a, stack, r))
  {
    GotoNeverMisses(a, stack, r);
    var n := a.g.NRhs(r);
    var m := |stack| - n;
    OnlyTopIsPending(a, stack, m - 1);
    hide Inv, Automaton.Valid, Yield, YieldAll;
    var p := stack[m - 1].stateno;
    var act := a.goto[p][a.g.LhsOf(r)];
    assert Minors(UnfuseAll(a, stack)[m..]) == Minors(stack[m..]);
    assert Top(UnfuseAll(a, stack)[..m]).stateno == p;
    if act <= a.MaxShiftReduce() {
      var e := Entry(a.Fuse(act), a.g.LhsOf(r), Node(r, Minors(stack[m..])));
      assert UnfuseAll(a, stack[..m] + [e]) == UnfuseAll(a, stack)[..m] + [Unfuse(a, e)];
    }
  }

  lemma ActionsAgree(a: Automaton, s: nat, look: nat)
    requires a.Sized() && a.IsStateno(s) && look < a.g.nTerminal
    requires var act := a.FindShift(s, look); act < a.nState || a.minShiftReduce <= act
    ensures var s' := if a.MinReduce() <= s then ReduceState(a, s - a.MinReduce()) else s;
            var act := a.FindShift(s, look);
            ActionOn(a, s', look) ==
            if act <= a.MaxShiftReduce() && s < a.nState then Push(Target(a, act))
            else if act <= a.MaxReduce() then ReduceRule(act - a.MinReduce()) else Error
  {
    if s < a.nState {
      ActionIsFirst(a, s, look);
    }
    hide FirstIn, Grammar.Candidates;
  }

  /** The fused machine takes exactly the textbook machine's turns. */
  lemma FusedRefinesPlain(a: Automaton, stack: seq<Entry>, tok: Token)
    requires Inv(a, stack) && tok.code < a.g.nTerminal
    ensures PlainTurn(a, UnfuseAll(a, stack), tok) == UnfuseTurn(a, Take(a, stack, tok))
  {
    hide PlainReduce, ReduceBy, ActionOn;
    TopIsReadable(a, stack, tok.code);
    var s := Top(stack).stateno;
    ActionsAgree(a, s, tok.code);
    var act := a.FindShift(s, tok.code);
    if act <= a.MaxShiftReduce() {
      var e := Entry(a.Fuse(act), tok.code, Leaf(tok));
      assert UnfuseAll(a, stack + [e]) == UnfuseAll(a, stack) + [Unfuse(a, e)];
    } else if act <= a.MaxReduce() {
      UnfuseReduce(a, stack, act - a.MinReduce());
    }
  }

  /** The textbook machine after `n` turns on an unbounded stack. */
  function PlainAfter(a: Automaton, c: Config, n: nat): Config
    requires a.Sized()
    decreases n
  {
    if n == 0 then c
    else
      var u := PlainAfter(a, c, n - 1);
      if !Active(u) || u.stack == [] then u
      else
        match PlainTurn(a, u.stack, u.input[0])
        case Shifted(s) => u.(stack := s, input := u.input[1..])
        case Reduced(s) => u.(stack := s)
        case Accept(t) => u.(stack := u.stack[..1], status := Accepted(t))
        case Reject => u.(status := SyntaxError)
        case Overflow => u.(status := StackOverflow)
  }

  function UnfuseConfig(a: Automaton, c: Config): Config {
    c.(stack := UnfuseAll(a, c.stack))
  }

  /** Run for run: same turns, same trees, same verdict. */
  lemma {:induction false} RunsAgree(a: Automaton, c: Config, n: nat)
    requires Live(a, c)
    ensures PlainAfter(a, UnfuseConfig(a, c), n) == UnfuseConfig(a, After(a, 0, c, n))
  {
    hide PlainTurn, Take;
    if n > 0 {
      RunsAgree(a, c, n - 1);
      var u := After(a, 0, c, n - 1);
      if Active(u) {
        FusedRefinesPlain(a, u.stack, u.input[0]);
        TakeNeverOverflows(a, u.stack, u.input[0]);
        assert UnfuseAll(a, u.stack)[..1] == UnfuseAll(a, u.stack[..1]);
      }
    }
  }
}
