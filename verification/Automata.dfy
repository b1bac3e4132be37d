/** The push-down machine over the sparse (uncompressed) action table, the validity of an
    automaton, and what every turn of the machine keeps. */
module Automata {
  import opened Grammars

  /** A rule with a dot: the first `dot` symbols of the right-hand side have been seen. */
  datatype Item = Item(rule: nat, dot: nat)

  /** The tables before compression.  Actions are the generator's numbers:
      states, then (after a gap) fused shift-reduces, then reduces, then error, accept and no-op.
      `items` annotates each state with the items it can vouch for. */
  datatype Automaton = Automaton(
    g: Grammar,
    nState: nat,
    minShiftReduce: nat,
    items: seq<set<Item>>,
    shift: seq<map<nat, nat>>,
    goto: seq<map<nat, nat>>,
    dflt: seq<nat>)
  {
    function NRule(): nat { |g.rules| }
    function MinReduce(): nat { minShiftReduce + NRule() }
    function MaxShiftReduce(): int { MinReduce() - 1 }
    function MaxReduce(): int { MinReduce() + NRule() - 1 }
    function ErrorAction(): nat { MinReduce() + NRule() }
    function AcceptAction(): nat { ErrorAction() + 1 }

    /** True states, or the pending reduce left behind by the shift half of a shift-reduce. */
    predicate IsStateno(s: nat) {
      s < nState || MinReduce() <= s <= MaxReduce()
    }

    ghost predicate Sized() {
      && g.WellFormed()
      && 0 < nState <= minShiftReduce
      && |items| == |shift| == |goto| == |dflt| == nState
      && (forall s: nat, it | s < nState :: ItemOk(s, it))
    }

    ghost predicate ItemOk(s: nat, it: Item)
      requires s < |items|
    {
      it in items[s] ==> it.rule < NRule() && it.dot <= g.NRhs(it.rule)
    }

    function Wild(s: nat, look: nat): nat
      requires s < |shift| && s < |dflt|
    {
      if g.wildcard in shift[s] && look > 0 then shift[s][g.wildcard] else dflt[s]
    }

    /** The action on a token: explicit, else through its fallback, else the wildcard, else the default. */
    function FindShift(s: nat, look: nat): nat
      requires s < |shift| == |dflt| || MinReduce() <= s
    {
      if MinReduce() <= s then s
      else if look in shift[s] then shift[s][look]
      else if g.Fallback(look) == 0 then Wild(s, look)
      else if g.Fallback(look) in shift[s] then shift[s][g.Fallback(look)]
      else Wild(s, g.Fallback(look))
    }

    /** What the shift half of a shift-reduce leaves in the stack. */
    function Fuse(act: nat): nat
      requires nState <= minShiftReduce
    {
      if act >= nState then act + (MinReduce() - minShiftReduce) else act
    }

    ghost function Held(s: nat): set<Item>
      requires |items| == nState && IsStateno(s)
    {
      if s < nState then items[s]
      else {Item(s - MinReduce(), g.NRhs(s - MinReduce()))}
    }

    /** An item of `s` whose dot is past a symbol is an item of `p` advanced over `x`. */
    ghost predicate StepsFrom(p: nat, x: nat, s: nat, it: Item)
      requires |items| == nState && p < nState && IsStateno(s)
    {
      it in Held(s) && it.rule < NRule() && 0 < it.dot <= g.NRhs(it.rule) ==>
        Item(it.rule, it.dot - 1) in items[p] && g.Matches(x, g.rules[it.rule].rhs[it.dot - 1])
    }

    /** Moving from state `p` over symbol `x` to `s`.  A pending reduce has something to reduce, and is
        not the reduce that accepts. */
    ghost predicate Advances(p: nat, x: nat, s: nat)
      requires Sized() && p < nState && IsStateno(s)
    {
      && s != 0
      && (nState <= s ==> g.NRhs(s - MinReduce()) > 0 && g.LhsOf(s - MinReduce()) != g.start)
      && forall it :: StepsFrom(p, x, s, it)
    }

    ghost predicate PushOk(p: nat, x: nat, act: nat)
      requires Sized() && p < nState && act <= MaxShiftReduce()
    {
      && (act < nState || minShiftReduce <= act)
      && Advances(p, x, Fuse(act))
    }

    ghost predicate ShiftOk(s: nat, look: nat)
      requires Sized() && s < nState
    {
      var act := FindShift(s, look);
      if act <= MaxShiftReduce() then
        look != 0 && PushOk(s, look, act)
      else if act <= MaxReduce() then
        var r := act - MinReduce();
        Item(r, g.NRhs(r)) in items[s] && (g.LhsOf(r) == g.start ==> look == 0)
      else
        act == ErrorAction()
    }

    ghost predicate GotoOk(s: nat, x: nat)
      requires Sized() && s < nState
    {
      x in goto[s] ==>
        var act := goto[s][x];
        && g.nTerminal <= x
        && if act <= MaxShiftReduce() then PushOk(s, x, act)
           else act == AcceptAction() && s == 0 && x == g.start
    }

    /** Items with the dot at the left promise a goto for their left-hand side. */
    ghost predicate ClosureOk(s: nat, it: Item)
      requires Sized() && s < nState
    {
      it in items[s] && it.rule < NRule() && it.dot == 0 ==> g.LhsOf(it.rule) in goto[s]
    }

    ghost predicate StartOk(it: Item)
      requires 0 < |items|
    {
      it in items[0] ==> it.dot == 0
    }

    ghost predicate Valid() {
      && Sized()
      && (forall it :: StartOk(it))
      && (forall s: nat, look: nat | s < nState && look < g.nTerminal :: ShiftOk(s, look))
      && (forall s: nat, x: nat | s < nState :: GotoOk(s, x))
      && (forall s: nat, it | s < nState :: ClosureOk(s, it))
    }
  }

  /** A row's action for the first of the symbols that has one. */
  function FirstIn(row: map<nat, nat>, xs: seq<nat>, otherwise: nat): nat {
    if xs == [] then otherwise else if xs[0] in row then row[xs[0]] else FirstIn(row, xs[1..], otherwise)
  }

  /** A true state's action on a token: that of the token itself, else of its fallback, else of the wildcard, which a
      token with a fallback gets to as well, else the default. */
  lemma ActionIsFirst(a: Automaton, s: nat, look: nat)
    requires a.Sized() && s < a.nState && look < a.g.nTerminal
    ensures var row, back := a.shift[s], a.g.Fallback(look);
            a.FindShift(s, look) ==
            if look in row then row[look]
            else if back != 0 && back in row then row[back]
            else if look != 0 && a.g.wildcard in row then row[a.g.wildcard]
            else a.dflt[s]
    ensures a.FindShift(s, look) == FirstIn(a.shift[s], a.g.Candidates(look), a.dflt[s])
  {
    var row := a.shift[s];
    var back, wild := if a.g.Fallback(look) != 0 then [a.g.Fallback(look)] else [],
                      if look != 0 then [a.g.wildcard] else [];
    assert look < |a.g.fallback| ==> a.g.FallbackEnds(look);
    assert FirstIn(row, wild, a.dflt[s]) == if look != 0 && a.g.wildcard in row then row[a.g.wildcard] else a.dflt[s] by {
      assert wild != [] ==> wild[1..] == [];
    }
    assert back == [] ==> back + wild == wild;
    assert back != [] ==> (back + wild)[1..] == wild;
    assert a.g.Candidates(look)[1..] == back + wild;
  }

  /** One element of the parser's stack. */
  datatype Entry = Entry(stateno: nat, major: nat, minor: Tree)

  function Minors(es: seq<Entry>): (ts: seq<Tree>)
    ensures |ts| == |es|
    ensures forall j | 0 <= j < |es| :: ts[j] == es[j].minor
  {
    seq(|es|, j requires 0 <= j < |es| => es[j].minor)
  }

  /** The tokens standing on the stack, bottom to top. */
  function StackYield(es: seq<Entry>): seq<Token> {
    YieldAll(Minors(es))
  }

  lemma StackYieldConcat(a: seq<Entry>, b: seq<Entry>)
    ensures StackYield(a + b) == StackYield(a) + StackYield(b)
  {
    assert Minors(a + b) == Minors(a) + Minors(b);
    YieldAllConcat(Minors(a), Minors(b));
  }

  const NO_TREE := Node(0, [])
  const BASE := Entry(0, 0, NO_TREE)

  ghost predicate EntryOk(a: Automaton, p: Entry, e: Entry)
    requires a.Sized()
  {
    && p.stateno < a.nState
    && a.IsStateno(e.stateno)
    && a.Advances(p.stateno, e.major, e.stateno)
    && a.g.Instance(e.minor)
    && a.g.Symbol(e.minor) == e.major
  }

  ghost predicate LinkOk(a: Automaton, stack: seq<Entry>, i: int)
    requires a.Sized() && 1 <= i < |stack|
  {
    EntryOk(a, stack[i - 1], stack[i])
  }

  /** The stack invariant.  Entries above the base are `stack[1..]`; only the top one may hold a
      pending reduce, since every other entry is the predecessor of one. */
  ghost predicate Inv(a: Automaton, stack: seq<Entry>) {
    && a.Valid()
    && |stack| > 0
    && stack[0] == BASE
    && forall i | 1 <= i < |stack| :: LinkOk(a, stack, i)
  }

  function Top(stack: seq<Entry>): Entry
    requires |stack| > 0
  {
    stack[|stack| - 1]
  }

  /** Following an item back down the stack: the symbols left of its dot are on the stack, and the
      state uncovered below them holds the item with its dot at the left. */
  lemma {:induction false} ItemDescends(a: Automaton, stack: seq<Entry>, i: nat, it: Item, d: nat)
    requires Inv(a, stack) && i < |stack|
    requires a.IsStateno(stack[i].stateno) && it in a.Held(stack[i].stateno) && it.rule < a.NRule() && it.dot <= a.g.NRhs(it.rule)
    requires d <= it.dot
    ensures d <= i
    ensures a.IsStateno(stack[i - d].stateno) && (d > 0 ==> stack[i - d].stateno < a.nState)
    ensures Item(it.rule, it.dot - d) in a.Held(stack[i - d].stateno)
    ensures forall k | i - d < k <= i :: a.g.Matches(stack[k].major, a.g.rules[it.rule].rhs[it.dot - 1 - (i - k)])
    decreases d
  {
    if d > 0 {
      assert a.StartOk(it);
      assert LinkOk(a, stack, i);
      assert a.StepsFrom(stack[i - 1].stateno, stack[i].major, stack[i].stateno, it);
      ItemDescends(a, stack, i - 1, Item(it.rule, it.dot - 1), d - 1);
    }
  }

  // --- One turn of the parsing loop ---

  datatype Turn = Shifted(stack: seq<Entry>) | Reduced(stack: seq<Entry>) | Accept(tree: Tree) | Reject | Overflow

  ghost predicate ReduceReady(a: Automaton, stack: seq<Entry>, r: nat) {
    && Inv(a, stack)
    && r < a.NRule()
    && a.IsStateno(Top(stack).stateno)
    && Item(r, a.g.NRhs(r)) in a.Held(Top(stack).stateno)
  }

  /** Gotos never miss: the right-hand side is on the stack above a true state, and that state has a
      goto for the left-hand side. */
  lemma GotoNeverMisses(a: Automaton, stack: seq<Entry>, r: nat)
    requires ReduceReady(a, stack, r)
    ensures a.g.NRhs(r) < |stack|
    ensures var p := stack[|stack| - 1 - a.g.NRhs(r)].stateno;
            p < a.nState && a.g.LhsOf(r) in a.goto[p] && a.GotoOk(p, a.g.LhsOf(r))
    ensures var args := stack[|stack| - a.g.NRhs(r)..];
            forall j | 0 <= j < |args| :: a.g.Matches(args[j].major, a.g.rules[r].rhs[j])
  {
    var n := a.g.NRhs(r);
    ItemDescends(a, stack, |stack| - 1, Item(r, n), n);
    assert |stack| > 1 ==> LinkOk(a, stack, |stack| - 1);
    var p := stack[|stack| - 1 - n].stateno;
    assert a.ClosureOk(p, Item(r, 0)) && a.GotoOk(p, a.g.LhsOf(r));
  }

  function ReduceBy(a: Automaton, stack: seq<Entry>, r: nat): Turn
    requires ReduceReady(a, stack, r)
  {
    GotoNeverMisses(a, stack, r);
    var keep := stack[..|stack| - a.g.NRhs(r)];
    var node := Node(r, Minors(stack[|stack| - a.g.NRhs(r)..]));
    var act := a.goto[Top(keep).stateno][a.g.LhsOf(r)];
    if act <= a.MaxShiftReduce() then Reduced(keep + [Entry(a.Fuse(act), a.g.LhsOf(r), node)])
    else Accept(node)
  }

  /** One turn on an unbounded stack. */
  function Take(a: Automaton, stack: seq<Entry>, tok: Token): Turn
    requires Inv(a, stack) && tok.code < a.g.nTerminal
  {
    TopIsReadable(a, stack, tok.code);
    var act := a.FindShift(Top(stack).stateno, tok.code);
    if act <= a.MaxShiftReduce() then Shifted(stack + [Entry(a.Fuse(act), tok.code, Leaf(tok))])
    else if act <= a.MaxReduce() then ReduceBy(a, stack, act - a.MinReduce())
    else Reject
  }

  /** The top entry always holds something the action lookup is defined on, and a reduce it calls for
      is ready. */
  lemma TopIsReadable(a: Automaton, stack: seq<Entry>, look: nat)
    requires Inv(a, stack) && look < a.g.nTerminal
    ensures a.IsStateno(Top(stack).stateno)
    ensures a.MinReduce() <= a.FindShift(Top(stack).stateno, look) <= a.MaxReduce() ==>
              ReduceReady(a, stack, a.FindShift(Top(stack).stateno, look) - a.MinReduce())
    ensures a.FindShift(Top(stack).stateno, look) <= a.MaxShiftReduce() ==>
              Top(stack).stateno < a.nState && look != 0
              && a.PushOk(Top(stack).stateno, look, a.FindShift(Top(stack).stateno, look))
    ensures a.FindShift(Top(stack).stateno, look) <= a.ErrorAction()
  {
    assert |stack| > 1 ==> LinkOk(a, stack, |stack| - 1);
    if Top(stack).stateno < a.nState {
      assert a.ShiftOk(Top(stack).stateno, look);
    }
  }

  lemma PrefixKeepsInv(a: Automaton, stack: seq<Entry>, k: nat)
    requires Inv(a, stack) && 0 < k <= |stack|
    ensures Inv(a, stack[..k])
  {
    forall i | 1 <= i < k
      ensures LinkOk(a, stack[..k], i)
    {
      assert LinkOk(a, stack, i);
    }
  }

  lemma PushKeepsInv(a: Automaton, stack: seq<Entry>, e: Entry)
    requires Inv(a, stack) && EntryOk(a, Top(stack), e)
    ensures Inv(a, stack + [e])
    ensures StackYield(stack + [e]) == StackYield(stack) + Yield(e.minor)
  {
    var s := stack + [e];
    forall i | 1 <= i < |s|
      ensures LinkOk(a, s, i)
    {
      assert i < |stack| ==> LinkOk(a, stack, i);
    }
    StackYieldConcat(stack, [e]);
    assert Minors([e]) == [e.minor];
    YieldAllSingle(e.minor);
  }

  lemma ShiftKeeps(a: Automaton, stack: seq<Entry>, tok: Token)
    requires Inv(a, stack) && tok.code < a.g.nTerminal && Take(a, stack, tok).Shifted?
    ensures var s := Take(a, stack, tok).stack;
            Inv(a, s) && StackYield(s) == StackYield(stack) + [tok] && |s| == |stack| + 1 && tok.code != 0
  {
    TopIsReadable(a, stack, tok.code);
    var act := a.FindShift(Top(stack).stateno, tok.code);
    PushKeepsInv(a, stack, Entry(a.Fuse(act), tok.code, Leaf(tok)));
  }

  /** The node built by a reduce is an instance of its rule... */
  lemma NodeIsInstance(a: Automaton, stack: seq<Entry>, r: nat)
    requires ReduceReady(a, stack, r) && a.g.NRhs(r) < |stack|
    ensures a.g.Instance(Node(r, Minors(stack[|stack| - a.g.NRhs(r)..])))
  {
    GotoNeverMisses(a, stack, r);
    var n := a.g.NRhs(r);
    var args := stack[|stack| - n..];
    forall j | 0 <= j < |args|
      ensures a.g.Instance(args[j].minor) && a.g.Symbol(args[j].minor) == args[j].major
    {
      assert LinkOk(a, stack, |stack| - n + j);
    }
    hide Inv, Automaton.Valid;
  }

  /** ...and spells what its children spelled. */
  lemma NodeYield(stack: seq<Entry>, r: nat, m: nat)
    requires m <= |stack|
    ensures Yield(Node(r, Minors(stack[m..]))) == StackYield(stack[m..])
    ensures StackYield(stack) == StackYield(stack[..m]) + Yield(Node(r, Minors(stack[m..])))
  {
    assert stack == stack[..m] + stack[m..];
    StackYieldConcat(stack[..m], stack[m..]);
  }

  lemma BaseYield()
    ensures StackYield([BASE]) == []
  {
    assert Minors([BASE]) == [NO_TREE];
    YieldAllSingle(NO_TREE);
  }

  /** The goto either gives an entry that fits on top of what is kept, or accepts with just the base left. */
  lemma GotoFits(a: Automaton, stack: seq<Entry>, r: nat)
    requires ReduceReady(a, stack, r) && a.g.NRhs(r) < |stack|
    ensures var keep, x := stack[..|stack| - a.g.NRhs(r)], a.g.LhsOf(r);
            var node := Node(r, Minors(stack[|stack| - a.g.NRhs(r)..]));
            && Inv(a, keep) && Top(keep).stateno < a.nState && x in a.goto[Top(keep).stateno]
            && var act := a.goto[Top(keep).stateno][x];
            if act <= a.MaxShiftReduce() then EntryOk(a, Top(keep), Entry(a.Fuse(act), x, node))
            else keep == [BASE] && x == a.g.start
  {
    GotoNeverMisses(a, stack, r);
    NodeIsInstance(a, stack, r);
    var keep := stack[..|stack| - a.g.NRhs(r)];
    PrefixKeepsInv(a, stack, |keep|);
    BaseIsUnique(a, keep);
    assert a.Sized();
    hide Inv, Automaton.Valid, Automaton.Advances, Grammar.Matches, YieldAll, Yield;
  }

  lemma ReduceKeeps(a: Automaton, stack: seq<Entry>, r: nat)
    requires ReduceReady(a, stack, r)
    ensures var n := a.g.NRhs(r);
            match ReduceBy(a, stack, r)
            case Reduced(s) => Inv(a, s) && StackYield(s) == StackYield(stack) && |s| == |stack| - n + 1 >= 2
            case Accept(t) => a.g.Instance(t) && a.g.Symbol(t) == a.g.start && Yield(t) == StackYield(stack)
                              && n == |stack| - 1 && a.g.LhsOf(r) == a.g.start
            case _ => false
  {
    assert a.Sized();
    hide Inv, Automaton.Valid, YieldAll, Yield, Grammar.Instance, EntryOk;
    GotoNeverMisses(a, stack, r);
    NodeIsInstance(a, stack, r);
    GotoFits(a, stack, r);
    BaseYield();
    var m := |stack| - a.g.NRhs(r);
    NodeYield(stack, r, m);
    var keep, node := stack[..m], Node(r, Minors(stack[m..]));
    var act := a.goto[Top(keep).stateno][a.g.LhsOf(r)];
    if act <= a.MaxShiftReduce() {
      var e := Entry(a.Fuse(act), a.g.LhsOf(r), node);
      assert ReduceBy(a, stack, r) == Reduced(keep + [e]);
      PushKeepsInv(a, keep, e);
    } else {
      assert ReduceBy(a, stack, r) == Accept(node);
    }
  }

  /** State 0 is found only at the bottom of the stack. */
  lemma BaseIsUnique(a: Automaton, stack: seq<Entry>)
    requires Inv(a, stack)
    ensures |stack| > 1 ==> Top(stack).stateno != 0
    ensures |stack| == 1 ==> stack == [BASE]
  {
    assert |stack| > 1 ==> LinkOk(a, stack, |stack| - 1);
  }

  /** The end marker is never shifted, and only the end marker accepts. */
  lemma AcceptOnlyAtEnd(a: Automaton, stack: seq<Entry>, tok: Token)
    requires Inv(a, stack) && tok.code < a.g.nTerminal && Take(a, stack, tok).Accept?
    ensures tok.code == 0
  {
    TopIsReadable(a, stack, tok.code);
    var r := a.FindShift(Top(stack).stateno, tok.code) - a.MinReduce();
    ReduceKeeps(a, stack, r);
    assert |stack| > 1 ==> LinkOk(a, stack, |stack| - 1);
    if Top(stack).stateno < a.nState {
      assert a.ShiftOk(Top(stack).stateno, tok.code);
    }
  }
}
