/** The engine itself: a parser object whose stack is a mutable array, driven one token at a time. */
module Engine {
  import opened Grammars
  import opened Automata
  import opened Runs
  import opened Termination
  import opened PackedTables

  /** The clean-up routine that a symbol's semantic value calls for. */
  datatype Destructor = DeleteSelect | DeleteExpr | DeleteExprList | DeleteSrcList | DeleteWith
                      | DeleteIdList | DeleteTriggerStep | NoDestructor

  function DestructorOf(major: nat): Destructor {
    if major in {163, 194, 195, 206} then DeleteSelect
    else if major in {172, 173, 201, 203, 215, 225, 227, 236, 241} then DeleteExpr
    else if major in {177, 186, 187, 199, 202, 204, 207, 208, 209, 218, 224, 226} then DeleteExprList
    else if major in {193, 200, 211, 212} then DeleteSrcList
    else if major in {196, 250} then DeleteWith
    else if major in {216, 217, 220, 234} then DeleteIdList
    else if major in {232, 237} then DeleteTriggerStep
    else NoDestructor
  }

  datatype Release = Release(how: Destructor, value: Tree)

  function ReleaseOf(e: Entry): Release {
    Release(DestructorOf(e.major), e.minor)
  }

  /** The clean-ups of popping everything above the base, top first. */
  function Releases(stack: seq<Entry>): seq<Release> {
    if |stack| <= 1 then [] else [ReleaseOf(Top(stack))] + Releases(stack[..|stack| - 1])
  }

  /** Every entry above the base is released exactly once, with its own symbol's clean-up. */
  lemma {:induction false} ReleasedOnce(stack: seq<Entry>)
    requires stack != []
    ensures |Releases(stack)| == |stack| - 1
    ensures forall i | 0 < i < |stack| :: Releases(stack)[|stack| - 1 - i] == ReleaseOf(stack[i])
  {
    if |stack| > 1 {
      var below := stack[..|stack| - 1];
      ReleasedOnce(below);
      forall i | 0 < i < |stack|
        ensures Releases(stack)[|stack| - 1 - i] == ReleaseOf(stack[i])
      {
        assert i < |below| ==> below[i] == stack[i] && Releases(stack)[|stack| - 1 - i] == Releases(below)[|below| - 1 - i];
      }
    }
  }

  /** What an overflow releases of the stack `s`. */
  function OverflowReleases(a: Automaton, s: seq<Entry>, tok: Token): seq<Release>
    requires Inv(a, s) && tok.code < a.g.nTerminal
  {
    Releases(if Take(a, s, tok).Shifted? then s else s[..|s| - 1])
  }

  /** The action looked up is to reduce by a rule with an empty right-hand side. */
  predicate ReducesEmptyRule(a: Automaton, s: seq<Entry>, tok: Token)
    requires Inv(a, s) && tok.code < a.g.nTerminal
  {
    TopIsReadable(a, s, tok.code);
    var act := a.FindShift(Top(s).stateno, tok.code);
    a.MinReduce() <= act <= a.MaxReduce() && a.g.NRhs(act - a.MinReduce()) == 0
  }

  predicate Shifts(a: Automaton, s: seq<Entry>, tok: Token)
    requires Inv(a, s) && tok.code < a.g.nTerminal
  {
    TopIsReadable(a, s, tok.code);
    a.FindShift(Top(s).stateno, tok.code) <= a.MaxShiftReduce()
  }

  /** A turn overflows exactly when the stack is full and the action looked up is a shift or an empty-rule reduce. */
  lemma OverflowsExactly(a: Automaton, depth: nat, s: seq<Entry>, tok: Token)
    requires Inv(a, s) && tok.code < a.g.nTerminal && 1 < depth && |s| <= depth
    ensures TakeWithin(a, depth, s, tok).Overflow? <==>
            |s| == depth && (Shifts(a, s, tok) || ReducesEmptyRule(a, s, tok))
  {
    TopIsReadable(a, s, tok.code);
    var act := a.FindShift(Top(s).stateno, tok.code);
    if a.MinReduce() <= act <= a.MaxReduce() {
      ReduceKeeps(a, s, act - a.MinReduce());
    }
    hide ReduceBy, Inv, Automaton.Valid;
  }

  /** The pops that call a clean-up routine. */
  function CleanUps(rs: seq<Release>): seq<Release> {
    if rs == [] then []
    else (if rs[0].how != NoDestructor then [rs[0]] else []) + CleanUps(rs[1..])
  }

  /** A clean-up is missed exactly when a full stack, with a value on top that needs one, reduces by an empty rule;
      it is then the clean-up of that value, and no other. */
  lemma CleanUpMissedExactly(a: Automaton, depth: nat, s: seq<Entry>, tok: Token)
    requires Inv(a, s) && tok.code < a.g.nTerminal && 1 < depth && |s| <= depth
    ensures TakeWithin(a, depth, s, tok).Overflow? && CleanUps(OverflowReleases(a, s, tok)) != CleanUps(Releases(s))
            <==> |s| == depth && ReducesEmptyRule(a, s, tok) && DestructorOf(Top(s).major) != NoDestructor
    ensures |s| == depth && ReducesEmptyRule(a, s, tok) && DestructorOf(Top(s).major) != NoDestructor ==>
            CleanUps(Releases(s)) == [ReleaseOf(Top(s))] + CleanUps(OverflowReleases(a, s, tok))
  {
    OverflowsExactly(a, depth, s, tok);
    TopIsReadable(a, s, tok.code);
    if TakeWithin(a, depth, s, tok).Overflow? {
      OverflowForgetsTop(a, depth, s, tok);
    }
    hide Inv, Automaton.Valid, ReduceBy;
  }

  /** An overflow comes from a shift or from reducing an empty rule, and pops everything exactly when it comes
      from a shift: the other way it passes over the entry on top. */
  lemma OverflowForgetsTop(a: Automaton, depth: nat, s: seq<Entry>, tok: Token)
    requires Inv(a, s) && tok.code < a.g.nTerminal && 1 < depth && |s| <= depth
    requires TakeWithin(a, depth, s, tok).Overflow?
    ensures |s| == depth
    ensures OverflowReleases(a, s, tok) == Releases(s) <==> Take(a, s, tok).Shifted?
    ensures !Take(a, s, tok).Shifted? ==>
      Take(a, s, tok).Reduced? && |Take(a, s, tok).stack| == |s| + 1 && Releases(s) == [ReleaseOf(Top(s))] + OverflowReleases(a, s, tok)
  {
    if Take(a, s, tok).Shifted? {
      ShiftKeeps(a, s, tok);
    } else {
      TakeNeverOverflows(a, s, tok);
      ReducedKeeps(a, s, tok);
    }
    ReleasedOnce(s);
    ReleasedOnce(s[..|s| - 1]);
  }

  datatype Message = NearSyntaxError(tok: Token) | ParserStackOverflow

  /** A reduce, spelled out: the goto it takes and the stack or tree it leaves. */
  lemma ReduceUnfolds(a: Automaton, s: seq<Entry>, r: nat)
    requires ReduceReady(a, s, r)
    ensures Inv(a, s[..1]) && a.g.NRhs(r) < |s|
    ensures var m := |s| - a.g.NRhs(r);
            var p, x, node := s[m - 1].stateno, a.g.LhsOf(r), Node(r, Minors(s[m..]));
            && p < a.nState && x in a.goto[p]
            && if a.goto[p][x] < a.MinReduce() then
                 var s' := s[..m] + [Entry(a.Fuse(a.goto[p][x]), x, node)];
                 ReduceBy(a, s, r) == Reduced(s') && Inv(a, s')
               else
                 ReduceBy(a, s, r) == Accept(node) && m == 1
  {
    GotoNeverMisses(a, s, r);
    ReduceKeeps(a, s, r);
    BottomIsLive(a, s);
  }

  lemma ReadyToShift(a: Automaton, s: seq<Entry>, tok: Token)
    requires Inv(a, s) && tok.code < a.g.nTerminal && a.IsStateno(Top(s).stateno)
    requires a.FindShift(Top(s).stateno, tok.code) <= a.MaxShiftReduce()
    ensures EntryOk(a, Top(s), Entry(a.Fuse(a.FindShift(Top(s).stateno, tok.code)), tok.code, Leaf(tok)))
  {
    TopIsReadable(a, s, tok.code);
  }

  /** What a turn leaves on the stack, and that only a reduce leaves the token to deal with. */
  lemma TurnOutcome(k: Ranking, a: Automaton, depth: nat, s: seq<Entry>, tok: Token)
    requires k.Certifies(a.g) && Inv(a, s) && tok.code < a.g.nTerminal && depth > 0
    ensures Live(a, Config(s, [tok], Running))
    ensures var t := TakeWithin(a, depth, s, tok);
            var c' := Advance(a, depth, Config(s, [tok], Running));
            && c'.stack == (match t case Shifted(s') => s' case Reduced(s') => s' case Reject => s case _ => s[..1])
            && (Active(c') <==> t.Reduced?)
            && (t.Reduced? ==> |t.stack| >= 2 && c' == Config(t.stack, [tok], Running) && Closer(k, a.g, depth, s, t.stack))
  {
    if TakeWithin(a, depth, s, tok).Reduced? {
      ReducedKeeps(a, s, tok);
      TurnComesCloser(k, a, depth, s, tok);
    }
  }

  lemma ReduceNeverShifts(a: Automaton, s: seq<Entry>, r: nat)
    requires ReduceReady(a, s, r)
    ensures ReduceBy(a, s, r).Reduced? || ReduceBy(a, s, r).Accept?
  {
  }

  class Parser {
    const tab: Packed
    const g: Grammar
    const nState: nat
    const minShiftReduce: nat
    const nocode: nat
    /** YYSTACKDEPTH: the size of the stack, or 0 for one that grows. */
    const depth: nat
    ghost const a: Automaton
    var yystack: array<Entry>
    var yytos: nat
    var released: seq<Release>
    var messages: seq<Message>
    var accepted: seq<Tree>

    function MinReduce(): nat { minShiftReduce + |g.rules| }

    ghost predicate Built() {
      && a.Valid() && tab.Packs(a) && tab.GuardsSuffice(a)
      && g == a.g && nState == a.nState && minShiftReduce == a.minShiftReduce
      && g.nTerminal <= nocode && depth != 1
    }

    ghost predicate Sized()
      reads this
    {
      Built() && 0 < yystack.Length && (depth > 0 ==> yystack.Length == depth)
    }

    ghost function Stack(): seq<Entry>
      reads this`yystack, this`yytos, yystack
      requires yytos < yystack.Length
    {
      yystack[..yytos + 1]
    }

    ghost predicate Valid()
      reads this, yystack
    {
      Sized() && yytos < yystack.Length && Inv(a, Stack())
    }

    constructor Alloc(tab: Packed, g: Grammar, nState: nat, minShiftReduce: nat, nocode: nat, depth: nat,
                      ghost a: Automaton)
      requires a.Valid() && tab.Packs(a) && tab.GuardsSuffice(a) && g == a.g && nState == a.nState
      requires minShiftReduce == a.minShiftReduce && g.nTerminal <= nocode && depth != 1
      ensures Valid() && fresh(yystack) && yystack.Length == if depth == 0 then 100 else depth
      ensures Stack() == [BASE] && released == [] && messages == [] && accepted == []
      ensures this.tab == tab && this.g == g && this.depth == depth && this.a == a && this.nocode == nocode
      ensures this.nState == nState && this.minShiftReduce == minShiftReduce
    {
      this.tab, this.g, this.nState, this.minShiftReduce := tab, g, nState, minShiftReduce;
      this.nocode, this.depth, this.a := nocode, depth, a;
      yystack := new Entry[if depth == 0 then 100 else depth](i => BASE);
      yytos := 0;
      released, messages, accepted := [], [], [];
      new;
      assert Stack() == [BASE];
    }

    /** Pop the stack once and clean up what was there. */
    method PopParserStack()
      requires 0 < yytos < yystack.Length
      modifies this`yytos, this`released
      ensures yytos == old(yytos) - 1
      ensures released == old(released) + [ReleaseOf(yystack[old(yytos)])]
    {
      var top := yystack[yytos];
      yytos := yytos - 1;
      released := released + [ReleaseOf(top)];
    }

    /** Pop down to the base: every entry above it is released once, top first. */
    method PopAll()
      requires yytos < yystack.Length
      modifies this`yytos, this`released
      ensures yytos == 0
      ensures released == old(released) + Releases(old(Stack()))
    {
      ghost var s := Stack();
      while yytos > 0
        invariant yytos < yystack.Length && Stack() == s[..yytos + 1]
        invariant released + Releases(Stack()) == old(released) + Releases(s)
      {
        assert Stack()[..|Stack()| - 1] == s[..yytos];
        PopParserStack();
        assert Stack() == s[..yytos + 1];
      }
    }

    /** Free the parser: everything still on the stack is released once. */
    method Free()
      requires Valid()
      modifies this`yytos, this`released
      ensures Valid() && Stack() == old(Stack())[..1]
      ensures released == old(released) + Releases(old(Stack()))
    {
      ghost var s := Stack();
      PopAll();
      BottomIsLive(a, s);
      assert Stack() == s[..1];
    }

    /** The opening decrement assumes that the caller has already advanced the top. */
    method StackOverflow()
      requires 0 < yytos <= yystack.Length
      modifies this`yytos, this`released, this`messages
      ensures yytos == 0
      ensures released == old(released) + Releases(old(yystack[..yytos]))
      ensures messages == old(messages) + [ParserStackOverflow]
    {
      yytos := yytos - 1;
      PopAll();
      messages := messages + [ParserStackOverflow];
    }

    /** Reallocate to twice the size plus 100; contents and top index are kept. */
    method GrowStack()
      requires yytos <= yystack.Length
      modifies this`yystack
      ensures fresh(yystack) && yystack.Length == 2 * old(yystack.Length) + 100
      ensures yystack[..old(yystack.Length)] == old(yystack[..])
    {
      var was := yystack;
      var pNew := new Entry[yystack.Length * 2 + 100](i => BASE);
      forall i | 0 <= i < was.Length {
        pNew[i] := was[i];
      }
      yystack := pNew;
    }

    /** Write an entry at `at` and make it the top.  An action above the states is a fused reduce, kept
        as the pending reduce itself. */
    method Put(at: nat, action: nat, major: nat, minor: Tree)
      requires Sized() && at < yystack.Length
      requires Inv(a, yystack[..at] + [Entry(a.Fuse(action), major, minor)])
      modifies this`yytos, yystack
      ensures Valid() && Stack() == old(yystack[..at]) + [Entry(a.Fuse(action), major, minor)]
    {
      hide Inv;
      var stateno := action;
      if stateno >= nState {
        stateno := stateno + (MinReduce() - minShiftReduce);
      }
      yytos := at;
      yystack[at] := Entry(stateno, major, minor);
      assert Stack() == old(yystack[..at]) + [Entry(a.Fuse(action), major, minor)];
    }

    /** Shift.  The stack gains one entry, or everything above the base is released. */
    method Shift(yyNewState: nat, yyMajor: nat, yyMinor: Token)
      requires Valid() && yyNewState <= a.MaxShiftReduce()
      requires EntryOk(a, Top(Stack()), Entry(a.Fuse(yyNewState), yyMajor, Leaf(yyMinor)))
      modifies this`yystack, this`yytos, this`released, this`messages, yystack
      ensures Valid() && accepted == old(accepted)
      ensures yystack == old(yystack) || fresh(yystack)
      ensures HasRoom(depth, |old(Stack())| + 1) ==>
                Stack() == old(Stack()) + [Entry(a.Fuse(yyNewState), yyMajor, Leaf(yyMinor))]
                && released == old(released) && messages == old(messages)
      ensures !HasRoom(depth, |old(Stack())| + 1) ==>
                Stack() == old(Stack())[..1]
                && released == old(released) + Releases(old(Stack())) && messages == old(messages) + [ParserStackOverflow]
    {
      ghost var s := Stack();
      PushKeepsInv(a, s, Entry(a.Fuse(yyNewState), yyMajor, Leaf(yyMinor)));
      BottomIsLive(a, s);
      yytos := yytos + 1;
      if depth > 0 {
        if yytos >= depth {
          assert yystack[..yytos] == s;
          StackOverflow();
          assert Stack() == s[..1];
          return;
        }
      } else if yytos >= yystack.Length {
        GrowStack();
      }
      assert yystack[..yytos] == s;
      Put(yytos, yyNewState, yyMajor, Leaf(yyMinor));
    }

    /** Room for the one entry that reducing an empty rule adds.  On a full stack the overflow handler
        runs without the top having been advanced, so the old top entry is dropped without being
        released; everything below it is released once. */
    method MakeRoom() returns (ok: bool)
      requires Valid()
      modifies this`yystack, this`yytos, this`released, this`messages
      ensures Valid() && (yystack == old(yystack) || fresh(yystack))
      ensures ok == HasRoom(depth, |old(Stack())| + 1)
      ensures ok ==> Stack() == old(Stack()) && yytos + 1 < yystack.Length
                     && released == old(released) && messages == old(messages)
      ensures !ok ==> Stack() == old(Stack())[..1] && messages == old(messages) + [ParserStackOverflow]
                      && released == old(released) + Releases(old(Stack())[..|old(Stack())| - 1])
    {
      ghost var s := Stack();
      BottomIsLive(a, s);
      if depth > 0 {
        if yytos >= depth - 1 {
          assert yystack[..yytos] == s[..|s| - 1];
          StackOverflow();
          assert Stack() == s[..1];
          return false;
        }
      } else if yytos >= yystack.Length - 1 {
        GrowStack();
      }
      assert Stack() == s;
      return true;
    }

    lemma Facts()
      requires Valid()
      ensures Sized() && yytos < yystack.Length && |Stack()| == yytos + 1
      ensures a.Sized() && a.Valid() && tab.Packs(a) && a.g == g && a.MinReduce() == MinReduce() && 0 < a.nState
    {
    }

    /** The array on both sides of a handle of `n` entries. */
    lemma Slices(n: nat)
      requires yytos < yystack.Length && n <= yytos
      ensures yystack[yytos - n + 1..yytos + 1] == Stack()[|Stack()| - n..]
      ensures yystack[..yytos - n + 1] == Stack()[..|Stack()| - n] && yystack[yytos - n] == Top(Stack()[..|Stack()| - n])
    {
    }

    /** The machine's reduce, read off the array. */
    lemma GotoOnArray(r: nat)
      requires Valid() && ReduceReady(a, Stack(), r)
      ensures a.Sized() && r < a.NRule() && a.g.NRhs(r) <= yytos < yystack.Length
      ensures var m := yytos + 1 - a.g.NRhs(r);
              var p, x, node := yystack[m - 1].stateno, a.g.LhsOf(r), Node(r, Minors(yystack[m..yytos + 1]));
              && p < a.nState && x in a.goto[p]
              && if a.goto[p][x] < a.MinReduce() then
                   var s' := yystack[..m] + [Entry(a.Fuse(a.goto[p][x]), x, node)];
                   ReduceBy(a, Stack(), r) == Reduced(s') && Inv(a, s')
                 else
                   ReduceBy(a, Stack(), r) == Accept(node) && m == 1
    {
      Facts();
      assert r < a.NRule();
      hide Inv, Automaton.Valid, Automaton.Sized, ReduceBy, ReduceReady, Minors, EntryOk, Built, Sized, Valid;
      ReduceUnfolds(a, Stack(), r);
      Slices(a.g.NRhs(r));
      hide Stack;
    }

    /** Replace the right-hand side by the left-hand side and take the goto, which must exist. */
    method TakeGoto(yyruleno: nat)
      requires Valid() && ReduceReady(a, Stack(), yyruleno)
      requires a.g.NRhs(yyruleno) == 0 ==> yytos + 1 < yystack.Length
      modifies this`yytos, this`accepted, yystack
      ensures Valid()
      ensures match ReduceBy(a, old(Stack()), yyruleno)
              case Reduced(s) => Stack() == s && accepted == old(accepted)
              case Accept(t) => Stack() == old(Stack())[..1] && accepted == old(accepted) + [t]
              case _ => false
    {
      hide Inv, Automaton.Valid, Automaton.Sized, Packed.Packs, ReduceBy, ReduceReady, Minors, EntryOk, Built, Sized, Valid, Stack;
      Facts();
      GotoOnArray(yyruleno);
      var yysize := |g.rules[yyruleno].rhs|;
      var below := yytos - yysize;
      var node := Node(yyruleno, Minors(yystack[below + 1..yytos + 1]));
      var yygoto := g.rules[yyruleno].lhs;
      var yyact := FindReduceAction(tab, yystack[below].stateno, yygoto, a);
      if yyact < MinReduce() {
        Put(below + 1, yyact, yygoto, node);
      } else {
        AcceptAt(below, node);
      }
    }

    /** Pop the right-hand side of the accepting rule; only the base is left. */
    method AcceptAt(below: nat, node: Tree)
      requires Valid() && below == 0
      modifies this`yytos, this`accepted
      ensures Valid() && Stack() == old(Stack())[..1] && accepted == old(accepted) + [node]
    {
      BottomIsLive(a, Stack());
      ghost var s := Stack();
      yytos := below;
      accepted := accepted + [node];
      assert Stack() == s[..1];
    }

    /** Reduce by a rule and take the goto that must follow. */
    method Reduce(yyruleno: nat)
      requires Valid() && ReduceReady(a, Stack(), yyruleno)
      modifies this`yystack, this`yytos, this`released, this`messages, this`accepted, yystack
      ensures Valid() && (yystack == old(yystack) || fresh(yystack))
      ensures match ReduceBy(a, old(Stack()), yyruleno)
              case Reduced(s) =>
                accepted == old(accepted) &&
                if HasRoom(depth, |s|) then
                  Stack() == s && released == old(released) && messages == old(messages)
                else
                  Stack() == old(Stack())[..1] && messages == old(messages) + [ParserStackOverflow]
                  && released == old(released) + Releases(old(Stack())[..|old(Stack())| - 1])
              case Accept(t) =>
                Stack() == old(Stack())[..1] && accepted == old(accepted) + [t]
                && released == old(released) && messages == old(messages)
              case _ => false
    {
      hide ReduceBy;
      ReduceKeeps(a, Stack(), yyruleno);
      if |g.rules[yyruleno].rhs| == 0 {
        var ok := MakeRoom();
        if !ok {
          return;
        }
      }
      TakeGoto(yyruleno);
    }

    /** What one turn of the loop does to the object, read off the machine's turn. */
    ghost predicate Followed(s: seq<Entry>, tok: Token, rel: seq<Release>, msg: seq<Message>, acc: seq<Tree>)
      reads this, yystack
      requires Valid() && Inv(a, s) && tok.code < a.g.nTerminal
    {
      match TakeWithin(a, depth, s, tok)
      case Shifted(s') => Stack() == s' && released == rel && messages == msg && accepted == acc
      case Reduced(s') => Stack() == s' && released == rel && messages == msg && accepted == acc
      case Accept(t) => Stack() == s[..1] && released == rel && messages == msg && accepted == acc + [t]
      case Reject =>
        Stack() == s && released == rel + [Release(DestructorOf(tok.code), Leaf(tok))]
        && messages == msg + [NearSyntaxError(tok)] && accepted == acc
      case Overflow =>
        Stack() == s[..1] && messages == msg + [ParserStackOverflow] && accepted == acc
        && released == rel + OverflowReleases(a, s, tok)
    }

    /** The body of the loop: one shift, one reduce or one error.  Returns the token code that is
        left to deal with, `nocode` once the token is gone. */
    method TakeTurn(yymajor: nat, yyminor: Token) returns (next: nat)
      requires Valid() && yymajor == yyminor.code < g.nTerminal
      modifies this`yystack, this`yytos, this`released, this`messages, this`accepted, yystack
      ensures Valid() && (yystack == old(yystack) || fresh(yystack))
      ensures Followed(old(Stack()), yyminor, old(released), old(messages), old(accepted))
      ensures var t := TakeWithin(a, depth, old(Stack()), yyminor);
              next == if t.Reduced? || t.Accept? || (t.Overflow? && !Take(a, old(Stack()), yyminor).Shifted?) then yymajor else nocode
    {
      hide Inv, Automaton.Valid, Packed.Packs, ReduceBy;
      ghost var s := Stack();
      TopIsReadable(a, s, yymajor);
      next := yymajor;
      ghost var rounds;
      var yyact;
      yyact, rounds := FindShiftAction(tab, g, MinReduce(), yystack[yytos].stateno, yymajor, a);
      if yyact < MinReduce() {
        ReadyToShift(a, s, yyminor);
        Shift(yyact, yymajor, yyminor);
        next := nocode;
      } else if yyact < MinReduce() + |g.rules| {
        ReduceNeverShifts(a, s, yyact - MinReduce());
        Reduce(yyact - MinReduce());
      } else {
        messages := messages + [NearSyntaxError(yyminor)];
        released := released + [Release(DestructorOf(yymajor), Leaf(yyminor))];
        next := nocode;
      }
    }

    /** In the middle of a token: `n` turns of the machine have led to this stack, reporting nothing. */
    ghost predicate Midway(c: Config, n: nat, tok: Token, rel: seq<Release>, msg: seq<Message>, acc: seq<Tree>)
      reads this, yystack
    {
      && Valid() && Live(a, c) && tok.code < g.nTerminal
      && After(a, depth, c, n) == Config(Stack(), [tok], Running)
      && released == rel && messages == msg && accepted == acc
    }

    /** Done with a token: `n` turns have shifted it, accepted, failed or overflowed, and the last of them
        says what was reported and released. */
    ghost predicate Finished(c: Config, n: nat, tok: Token, rel: seq<Release>, msg: seq<Message>, acc: seq<Tree>)
      reads this, yystack
    {
      && Valid() && Live(a, c) && tok.code < a.g.nTerminal && n > 0
      && var last := After(a, depth, c, n - 1);
      && last.status == Running && last.input == [tok]
      && !Active(After(a, depth, c, n))
      && Stack() == After(a, depth, c, n).stack
      && Followed(last.stack, tok, rel, msg, acc)
    }

    method ParseTurn(tok: Token, ghost k: Ranking, ghost c: Config, ghost n: nat, ghost rel: seq<Release>,
                     ghost msg: seq<Message>, ghost acc: seq<Tree>)
      returns (more: bool)
      requires depth > 0 && k.Certifies(g) && Midway(c, n, tok, rel, msg, acc)
      modifies this`yystack, this`yytos, this`released, this`messages, this`accepted, yystack
      ensures yystack == old(yystack) || fresh(yystack)
      ensures more ==> Midway(c, n + 1, tok, rel, msg, acc) && Closer(k, g, depth, old(Stack()), Stack())
      ensures !more ==> Finished(c, n + 1, tok, rel, msg, acc)
    {
      assert g == a.g && g.nTerminal <= nocode;
      hide Inv, Automaton.Valid, Packed.Packs, Take, TakeWithin, Advance, Sized, After;
      ghost var s := Stack();
      var next := TakeTurn(tok.code, tok);
      AfterOneMore(a, depth, c, n + 1);
      TurnOutcome(k, a, depth, s, tok);
      more := next != nocode && yytos > 0;
    }

    /** The parser's entry point: deal with one token. */
    method Parse(tok: Token, ghost k: Ranking) returns (ghost n: nat)
      requires Valid() && depth > 0 && k.Certifies(g) && tok.code < g.nTerminal
      modifies this`yystack, this`yytos, this`released, this`messages, this`accepted, yystack
      ensures yystack == old(yystack) || fresh(yystack)
      ensures Finished(Config(old(Stack()), [tok], Running), n, tok, old(released), old(messages), old(accepted))
    {
      ghost var c := Config(Stack(), [tok], Running);
      AfterNothing(a, depth, c);
      ghost var rel, msg, acc := released, messages, accepted;
      n := 0;
      assert Midway(c, 0, tok, rel, msg, acc);
      var more := true;
      while more
        invariant yystack == old(yystack) || fresh(yystack)
        invariant yytos < yystack.Length
        invariant if more then Midway(c, n, tok, rel, msg, acc) else Finished(c, n, tok, rel, msg, acc)
        decreases more, Solid(Stack()), Slack(k, g, Stack()), Distance(k, g, depth, Stack())
      {
        hide Midway, Finished, Solid, Slack, Distance;
        more := ParseTurn(tok, k, c, n, rel, msg, acc);
        n := n + 1;
      }
    }
  }

  // --- The driver: a whole token stream through one parser object ---

  const TK_SEMI: nat := 1

  /** A statement as scanned: its tokens, and the blank text after the last of them, if any.  Spaces and comments
      further left leave no trace. */
  datatype Statement = Statement(toks: seq<Token>, blank: string)

  /** The text scanned last, which the tokens that close the statement are given as theirs. */
  function LastText(st: Statement): string {
    if st.blank != "" then st.blank else if st.toks == [] then "" else st.toks[|st.toks| - 1].text
  }

  /** The statement text as the grammar sees it: closed by a semicolon if it is not already. */
  function Terminated(st: Statement): seq<Token> {
    if st.toks != [] && st.toks[|st.toks| - 1].code == TK_SEMI then st.toks else st.toks + [Token(TK_SEMI, LastText(st))]
  }

  function FullInput(st: Statement): (full: seq<Token>)
    ensures |st.toks| < |full|
  {
    Terminated(st) + [Token(0, LastText(st))]
  }

  /** What the driver hands over: the tokens, a semicolon (code 1) unless one came last, and the end marker (code 0),
      both with the text of what was scanned last: blank text, else the last token. */
  lemma HandedOverInFull(st: Statement)
    ensures var n := |st.toks|;
            var text := if st.blank != "" then st.blank else if n == 0 then "" else st.toks[n - 1].text;
            && FullInput(st)[..n] == st.toks
            && FullInput(st)[n..] == if n > 0 && st.toks[n - 1].code == 1 then [Token(0, text)]
                                     else [Token(1, text), Token(0, text)]
  {
  }

  /** What the turn from `last` releases when it is the one that stops the run. */
  function ReleasedBy(a: Automaton, depth: nat, last: Config): seq<Release>
    requires Live(a, last) && Active(last)
  {
    match Advance(a, depth, last).status
    case SyntaxError => [Release(DestructorOf(last.input[0].code), Leaf(last.input[0]))]
    case StackOverflow => OverflowReleases(a, last.stack, last.input[0])
    case _ => []
  }

  lemma OverflowIsReleased(a: Automaton, depth: nat, last: Config)
    requires Live(a, last) && Active(last) && TakeWithin(a, depth, last.stack, last.input[0]).Overflow?
    ensures Advance(a, depth, last).status == StackOverflow
    ensures ReleasedBy(a, depth, last) == OverflowReleases(a, last.stack, last.input[0])
  {
  }

  /** The object's logs say how the turn from `last` ended, with an overflow from a full stack only. */
  ghost predicate LogsMatch(a: Automaton, depth: nat, last: Config, rel: seq<Release>, msg: seq<Message>,
                            acc: seq<Tree>)
    requires Live(a, last) && Active(last)
  {
    && rel == ReleasedBy(a, depth, last)
    && match Advance(a, depth, last).status
       case Running => msg == [] && acc == []
       case Accepted(t) => msg == [] && acc == [t]
       case SyntaxError => msg == [NearSyntaxError(last.input[0])] && acc == []
       case StackOverflow => msg == [ParserStackOverflow] && acc == [] && |last.stack| == depth
  }

  lemma LogsSay(a: Automaton, depth: nat, last: Config, rel: seq<Release>, msg: seq<Message>, acc: seq<Tree>)
    requires Live(a, last) && Active(last) && LogsMatch(a, depth, last, rel, msg, acc)
    ensures rel == ReleasedBy(a, depth, last)
    ensures Advance(a, depth, last).status.Running? ==> rel == [] && msg == [] && acc == []
    ensures msg == [] <==> Advance(a, depth, last).status.Running? || Advance(a, depth, last).status.Accepted?
  {
  }

  /** Feeding one token to the object is running the machine until the token is gone. */
  lemma FeedIsRun(p: Parser, before: Config, tok: Token, rest: seq<Token>, m: nat)
    requires before == Config(before.stack, [tok] + rest, Running) && Live(p.a, before) && Readable(p.a, rest)
    requires |before.stack| <= p.depth && 1 < p.depth
    requires p.Finished(Config(before.stack, [tok], Running), m, tok, [], [], [])
    ensures m > 0
    ensures var last, c := After(p.a, p.depth, before, m - 1), After(p.a, p.depth, before, m);
            && Active(last) && LogsMatch(p.a, p.depth, last, p.released, p.messages, p.accepted) && c.stack == p.Stack()
            && last.input == [tok] + rest
            && (c.status.Running? ==> c.input == rest && tok.code != 0)
            && (c.status.Accepted? ==> tok.code == 0)
  {
    hide Inv, Automaton.Valid, Advance, TakeWithin, Parser.Followed, LogsMatch, Parser.Valid;
    var c1 := Config(before.stack, [tok], Running);
    RestIsUnread(p.a, p.depth, c1, rest, m);
    LastIsUnread(p.a, p.depth, c1, rest, m);
    StaysInBounds(p.a, p.depth, c1, m - 1);
    AfterOneMore(p.a, p.depth, c1, m);
    LastTurnLogs(p, After(p.a, p.depth, c1, m - 1).stack, tok, rest);
    LogsSay(p.a, p.depth, After(p.a, p.depth, before, m - 1), p.released, p.messages, p.accepted);
  }

  /** The object's report of the turn that finished a token is the machine's. */
  lemma LastTurnLogs(p: Parser, s: seq<Entry>, tok: Token, rest: seq<Token>)
    requires p.Valid() && Live(p.a, Config(s, [tok], Running)) && Readable(p.a, rest) && |s| <= p.depth && 1 < p.depth
    requires tok.code < p.a.g.nTerminal && p.Followed(s, tok, [], [], [])
    requires !Active(Advance(p.a, p.depth, Config(s, [tok], Running)))
    ensures Live(p.a, Config(s, [tok] + rest, Running))
    ensures var last := Config(s, [tok] + rest, Running);
            && LogsMatch(p.a, p.depth, last, p.released, p.messages, p.accepted)
            && var c := Advance(p.a, p.depth, last);
            && (c.status.Running? ==> c.input == rest && tok.code != 0) && (c.status.Accepted? ==> tok.code == 0)
  {
    assert ([tok] + rest)[1..] == rest;
    OutcomeOf(p.a, p.depth, s, tok);
    hide Inv, Automaton.Valid, Take, Parser.Valid;
  }

  lemma OutcomeOf(a: Automaton, depth: nat, s: seq<Entry>, tok: Token)
    requires Inv(a, s) && tok.code < a.g.nTerminal && |s| <= depth && 1 < depth
    ensures match TakeWithin(a, depth, s, tok)
            case Shifted(_) => tok.code != 0
            case Accept(_) => tok.code == 0
            case Overflow => |s| == depth
            case _ => true
  {
    match TakeWithin(a, depth, s, tok) {
      case Shifted(_) => ShiftKeeps(a, s, tok);
      case Accept(_) => AcceptKeeps(a, s, tok);
      case Overflow => OverflowForgetsTop(a, depth, s, tok);
      case _ =>
    }
  }

  lemma LastIsUnread(a: Automaton, depth: nat, c: Config, rest: seq<Token>, m: nat)
    requires Live(a, c) && Readable(a, rest) && m > 0 && Active(After(a, depth, c, m - 1))
    ensures Live(a, c.(input := c.input + rest))
    ensures var last := After(a, depth, c, m - 1);
            After(a, depth, c.(input := c.input + rest), m - 1) == last.(input := last.input + rest)
    ensures var longer := c.(input := c.input + rest);
            After(a, depth, longer, m) == Advance(a, depth, After(a, depth, longer, m - 1))
  {
    hide Inv, TakeWithin;
    if m > 1 {
      AfterOneMore(a, depth, c, m - 1);
      StoppedStays(a, depth, After(a, depth, c, m - 2));
    }
    RestIsUnread(a, depth, c, rest, m - 1);
    AfterOneMore(a, depth, c.(input := c.input + rest), m);
  }

  /** Which token the driver hands over at position `pos` of the full input. */
  lemma InputAt(st: Statement, pos: nat)
    requires pos < |FullInput(st)|
    ensures var full := FullInput(st);
            && full[pos..] == [full[pos]] + full[pos + 1..]
            && |st.toks| + 1 <= |full| <= |st.toks| + 2
            && (pos < |st.toks| ==> full[pos] == st.toks[pos])
            && (pos >= |st.toks| ==>
                  full[pos] == Token(if pos > 0 && full[pos - 1].code == TK_SEMI then 0 else TK_SEMI, LastText(st)))
            && (pos + 1 == |full| <==> pos >= |st.toks| && full[pos].code == 0)
  {
  }

  /** Between two tokens: `n` turns have brought the machine to position `pos` of the full input, the last by shifting. */
  ghost predicate Between(p: Parser, full: seq<Token>, n: nat, pos: nat)
    reads p, p.yystack
  {
    && p.Valid() && Readable(p.a, full) && pos <= |full|
    && After(p.a, p.depth, Initial(full), n) == Config(p.Stack(), full[pos..], Running)
    && (n > 0 ==> After(p.a, p.depth, Initial(full), n - 1).input != full[pos..])
    && p.released == [] && p.messages == [] && p.accepted == []
  }

  /** The run over the full input has stopped, and the object's logs say how. */
  ghost predicate Stopped(p: Parser, full: seq<Token>, n: nat)
    reads p, p.yystack
  {
    && p.Valid() && Readable(p.a, full)
    && n > 0
    && var last, c := After(p.a, p.depth, Initial(full), n - 1), After(p.a, p.depth, Initial(full), n);
    && Active(last) && c == Advance(p.a, p.depth, last) && !c.status.Running? && c.stack == p.Stack()
    && LogsMatch(p.a, p.depth, last, p.released, p.messages, p.accepted)
  }

  /** After the token at `pos`: on to the next one, unless it was the end marker or something was reported. */
  ghost predicate Moved(p: Parser, full: seq<Token>, n: nat, pos: nat)
    reads p, p.yystack
    requires pos < |full|
  {
    if full[pos].code != 0 && p.messages == [] then Between(p, full, n, pos + 1) else Stopped(p, full, n)
  }

  lemma FedTo(p: Parser, full: seq<Token>, n: nat, pos: nat, stack: seq<Entry>, m: nat, n': nat)
    requires n' == n + m && 1 < p.depth && |stack| <= p.depth
    requires pos < |full| && Readable(p.a, full) && Live(p.a, Initial(full))
    requires After(p.a, p.depth, Initial(full), n) == Config(stack, full[pos..], Running)
    requires p.Finished(Config(stack, [full[pos]], Running), m, full[pos], [], [], [])
    ensures Moved(p, full, n', pos)
  {
    hide Inv, Automaton.Valid, Advance, Take, LogsMatch;
    assert p.Valid();
    var before := Config(stack, full[pos..], Running);
    assert full[pos..] == [full[pos]] + full[pos + 1..];
    FeedIsRun(p, before, full[pos], full[pos + 1..], m);
    AfterAdds(p.a, p.depth, Initial(full), n, m);
    AfterAdds(p.a, p.depth, Initial(full), n, m - 1);
    AfterOneMore(p.a, p.depth, Initial(full), n');
    LogsSay(p.a, p.depth, After(p.a, p.depth, Initial(full), n' - 1), p.released, p.messages, p.accepted);
  }

  /** One round of the driver loop: hand the object the next token. */
  method Feed(p: Parser, tok: Token, ghost full: seq<Token>, ghost n: nat, ghost pos: nat,
              ghost k: Ranking) returns (ghost n': nat)
    requires p.depth > 0 && k.Certifies(p.g) && Between(p, full, n, pos)
    requires pos < |full| && full[pos] == tok
    modifies p, p.yystack
    ensures p.yystack == old(p.yystack) || fresh(p.yystack)
    ensures if tok.code != 0 && p.messages == [] then Between(p, full, n', pos + 1) else Stopped(p, full, n')
  {
    ghost var stack := p.Stack();
    assert Live(p.a, Initial(full)) && Readable(p.a, full) && tok.code < p.g.nTerminal && p.Valid();
    assert After(p.a, p.depth, Initial(full), n) == Config(stack, full[pos..], Running);
    assert p.released == [] && p.messages == [] && p.accepted == [];
    hide Inv, Automaton.Valid, Parser.Finished, Between, Stopped;
    ghost var m := p.Parse(tok, k);
    n' := n + m;
    FedTo(p, full, n, pos, stack, m, n');
  }

  /** Which token the driver hands over next, if any. */
  method NextToken(st: Statement, i: nat, last: int, ghost pos: nat) returns (more: bool, tok: Token, i': nat)
    requires i <= |st.toks| && pos <= |FullInput(st)| && forall j | 0 <= j < |st.toks| :: st.toks[j].code != 0
    requires if i < |st.toks| then pos == i else |st.toks| <= pos
    requires last == if pos == 0 then -1 else FullInput(st)[pos - 1].code
    requires pos == |FullInput(st)| <==> last == 0
    ensures more <==> pos < |FullInput(st)|
    ensures more ==> tok == FullInput(st)[pos] && (tok.code == 0 <==> pos + 1 == |FullInput(st)|)
    ensures more ==> i <= i' <= |st.toks| && (if i' < |st.toks| then pos + 1 == i' else |st.toks| <= pos + 1)
  {
    if pos < |FullInput(st)| {
      InputAt(st, pos);
    }
    if i < |st.toks| {
      return true, st.toks[i], i + 1;
    }
    var text := if |st.blank| > 0 then st.blank else if st.toks == [] then "" else st.toks[|st.toks| - 1].text;
    if last == TK_SEMI {
      return true, Token(0, text), i;
    } else if last == 0 {
      return false, Token(0, text), i;
    } else {
      return true, Token(TK_SEMI, text), i;
    }
  }

  /** What makes the driver stop for reasons of its own: it may refuse to hand over the token at a position (the
      text is too long, an interrupt, an illegal token), and the actions run on a token may have set the result code
      (the command is done, or wrong) or used up the memory.  The engine looks at none of this. */
  datatype Host = Host(refuses: nat -> bool, stops: nat -> bool)

  /** The driver has handed over the tokens before `pos`, and nothing kept it from doing so. */
  ghost predicate HandedOver(host: Host, pos: nat) {
    && (forall k: nat | k < pos :: !host.refuses(k))
    && (forall k: nat | k + 1 < pos :: !host.stops(k))
  }

  predicate Halts(host: Host, pos: nat) {
    host.refuses(pos) || (pos > 0 && host.stops(pos - 1))
  }

  /** The driver loop: every token, then a semicolon unless one came last, then the end marker, until something is
      reported or the host has the driver stop. */
  method FeedAll(p: Parser, st: Statement, host: Host, ghost k: Ranking) returns (ghost n: nat, pos: nat)
    requires p.depth > 0 && k.Certifies(p.g) && Between(p, FullInput(st), 0, 0)
    requires forall j | 0 <= j < |st.toks| :: st.toks[j].code != 0
    modifies p, p.yystack
    ensures p.yystack == old(p.yystack) || fresh(p.yystack)
    ensures HandedOver(host, pos)
    ensures Stopped(p, FullInput(st), n)
            || (pos < |FullInput(st)| && Halts(host, pos) && Between(p, FullInput(st), n, pos))
  {
    hide Between, Stopped, FullInput, Readable, Ranking.Certifies;
    ghost var full := FullInput(st);
    n, pos := 0, 0;
    var lastTokenParsed: int := -1;
    var i := 0;
    while true
      invariant p.yystack == old(p.yystack) || fresh(p.yystack)
      invariant i <= |st.toks| && pos <= |full| && if i < |st.toks| then pos == i else |st.toks| <= pos
      invariant lastTokenParsed == if pos == 0 then -1 else full[pos - 1].code
      invariant pos == |full| <==> lastTokenParsed == 0
      invariant HandedOver(host, pos) && (pos > 0 ==> !host.stops(pos - 1))
      invariant if pos < |full| then Between(p, full, n, pos) else Stopped(p, full, n)
      decreases |full| - pos
    {
      var more, tok, i' := NextToken(st, i, lastTokenParsed, pos);
      if !more || host.refuses(pos) {
        break;
      }
      n := Feed(p, tok, full, n, pos, k);
      i, pos := i', pos + 1;
      lastTokenParsed := tok.code;
      if p.messages != [] || host.stops(pos - 1) {
        break;
      }
    }
  }

  /** The driver has left the machine running before position `pos`: what is stacked spells what was handed over. */
  ghost predicate LeftRunning(host: Host, full: seq<Token>, pos: nat, c: Config) {
    && pos < |full| && Halts(host, pos)
    && c.status.Running? && c.input == full[pos..] && StackYield(c.stack) == full[..pos]
  }

  /** The machine's run has ended with the turn from `last`, and the logs are that turn's and the freeing of the
      stack's. */
  ghost predicate Ended(a: Automaton, depth: nat, last: Config, c: Config, rel: seq<Release>, msg: seq<Message>,
                        acc: seq<Tree>)
    requires Live(a, last)
  {
    && Active(last) && c == Advance(a, depth, last) && !c.status.Running?
    && LogsMatch(a, depth, last, ReleasedBy(a, depth, last), msg, acc)
    && rel == ReleasedBy(a, depth, last) + Releases(c.stack)
  }

  /** A whole statement: feed until the machine's run ends or the host has the driver stop, then free the parser.
      Stopped by the host, the parser has reported and accepted nothing and has released just what was stacked. */
  method RunParser(p: Parser, st: Statement, host: Host, ghost k: Ranking) returns (ghost n: nat, pos: nat)
    requires p.Valid() && p.depth > 0 && k.Certifies(p.g) && TK_SEMI < p.g.nTerminal
    requires p.Stack() == [BASE] && p.released == [] && p.messages == [] && p.accepted == []
    requires forall j | 0 <= j < |st.toks| :: 0 < st.toks[j].code < p.g.nTerminal
    modifies p, p.yystack
    ensures p.Valid() && p.Stack() == [BASE]
    ensures Readable(p.a, FullInput(st)) && HandedOver(host, pos)
    ensures var c := After(p.a, p.depth, Initial(FullInput(st)), n);
            if c.status.Running? then
              LeftRunning(host, FullInput(st), pos, c)
              && (n > 0 ==> After(p.a, p.depth, Initial(FullInput(st)), n - 1).input != c.input)
              && p.messages == [] && p.accepted == [] && p.released == Releases(c.stack)
            else
              n > 0 && Ended(p.a, p.depth, After(p.a, p.depth, Initial(FullInput(st)), n - 1), c,
                             p.released, p.messages, p.accepted)
    ensures forall t | t in p.accepted :: Yield(t) == Terminated(st) && Sentence(p.g, p.g.start, Terminated(st))
  {
    AtStart(p, st);
    ghost var g := p.g;
    assert g == p.a.g;
    hide Between, Stopped, LogsMatch, ReleasedBy, FullInput, HandedOver, Halts, Ranking.Certifies, LeftRunning, Ended;
    n, pos := FeedAll(p, st, host, k);
    BaseStays(p);
    ghost var full := FullInput(st);
    ghost var stopped, c := Stopped(p, full, n), After(p.a, p.depth, Initial(full), n);
    if stopped {
      StoppedSays(p, full, n);
    } else {
      BetweenSays(p, full, n, pos, host);
    }
    p.Free();
    if stopped {
      EndedSays(p.a, p.depth, After(p.a, p.depth, Initial(full), n - 1), c, p.released, p.messages, p.accepted);
      AcceptedStatement(p.a, p.depth, st, n, p.messages, p.accepted);
    }
  }

  lemma StoppedSays(p: Parser, full: seq<Token>, n: nat)
    requires Stopped(p, full, n)
    ensures n > 0 && p.Valid() && Readable(p.a, full)
    ensures var last, c := After(p.a, p.depth, Initial(full), n - 1), After(p.a, p.depth, Initial(full), n);
            && Active(last) && c == Advance(p.a, p.depth, last) && !c.status.Running? && c.stack == p.Stack()
            && p.released == ReleasedBy(p.a, p.depth, last)
            && LogsMatch(p.a, p.depth, last, ReleasedBy(p.a, p.depth, last), p.messages, p.accepted)
  {
    hide Advance, After, LogsMatch, ReleasedBy;
    var last := After(p.a, p.depth, Initial(full), n - 1);
    LogsSay(p.a, p.depth, last, p.released, p.messages, p.accepted);
  }

  lemma EndedSays(a: Automaton, depth: nat, last: Config, c: Config, rel: seq<Release>, msg: seq<Message>,
                  acc: seq<Tree>)
    requires Live(a, last) && Active(last) && c == Advance(a, depth, last) && !c.status.Running?
    requires LogsMatch(a, depth, last, ReleasedBy(a, depth, last), msg, acc)
    requires rel == ReleasedBy(a, depth, last) + Releases(c.stack)
    ensures Ended(a, depth, last, c, rel, msg, acc)
  {
  }

  lemma BetweenSays(p: Parser, full: seq<Token>, n: nat, pos: nat, host: Host)
    requires Between(p, full, n, pos) && pos < |full| && Halts(host, pos) && Live(p.a, Initial(full))
    ensures p.released == [] && p.messages == [] && p.accepted == []
    ensures var c := After(p.a, p.depth, Initial(full), n);
            && c.stack == p.Stack() && LeftRunning(host, full, pos, c)
            && (n > 0 ==> After(p.a, p.depth, Initial(full), n - 1).input != c.input)
  {
    hide Inv, Advance, After, StackYield;
    RunsAccount(p.a, p.depth, full, n);
    var y := StackYield(p.Stack());
    assert y + full[pos..] == full;
    assert |y| == pos && y == (y + full[pos..])[..pos];
  }

  /** An accepted statement is a sentence, and its tree spells it. */
  lemma AcceptedStatement(a: Automaton, depth: nat, st: Statement, n: nat, msg: seq<Message>, acc: seq<Tree>)
    requires a.Valid() && TK_SEMI < a.g.nTerminal && forall j | 0 <= j < |st.toks| :: 0 < st.toks[j].code < a.g.nTerminal
    requires Live(a, Initial(FullInput(st)))
    requires n > 0 && var last := After(a, depth, Initial(FullInput(st)), n - 1);
             Active(last) && LogsMatch(a, depth, last, ReleasedBy(a, depth, last), msg, acc)
    ensures forall t | t in acc :: Yield(t) == Terminated(st) && Sentence(a.g, a.g.start, Terminated(st))
  {
    var c := After(a, depth, Initial(FullInput(st)), n);
    AfterOneMore(a, depth, Initial(FullInput(st)), n);
    hide Advance, Inv, After;
    if c.status.Accepted? {
      var end := Token(0, LastText(st));
      assert FullInput(st) == Terminated(st) + [end];
      AcceptedIsSentence(a, depth, Terminated(st), end, n);
    }
  }

  lemma AtStart(p: Parser, st: Statement)
    requires p.Valid() && TK_SEMI < p.g.nTerminal
    requires p.Stack() == [BASE] && p.released == [] && p.messages == [] && p.accepted == []
    requires forall j | 0 <= j < |st.toks| :: 0 < st.toks[j].code < p.g.nTerminal
    ensures Between(p, FullInput(st), 0, 0)
  {
    var full := FullInput(st);
    assert full[0..] == full;
    AfterNothing(p.a, p.depth, Initial(full));
  }

  lemma BaseStays(p: Parser)
    requires p.Valid()
    ensures p.Stack()[..1] == [BASE]
  {
  }
}
