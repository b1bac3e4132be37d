/** The expression reduce actions at work on the stack's own span cells. */
module ExprBuild {
  import opened Options
  import opened ExprTrees
  import opened ExprMeaning
  import opened ExprSpans

  class ExprSpan {
    var pExpr: Expr
    var zStart: nat
    var zEnd: nat

    ghost predicate Spans(s: Surface)
      reads this
    {
      pExpr == Tree(s) && zStart == Start(s) && zEnd == End(s)
    }

    constructor (tok: Tok, e: Expr)
      ensures pExpr == e && zStart == tok.z && zEnd == tok.End()
    {
      pExpr := e;
      zStart := tok.z;
      zEnd := tok.End();
    }

    method SpanSet(first: Tok, last: Tok)
      modifies this`zStart, this`zEnd
      ensures zStart == first.z && zEnd == last.End()
    {
      zStart := first.z;
      zEnd := last.End();
    }

    method SpanBinaryExpr(op: BinOp, right: ExprSpan)
      modifies this`pExpr, this`zEnd
      ensures pExpr == NewBinary(op, old(pExpr), old(right.pExpr)) && zEnd == old(right.zEnd)
    {
      pExpr := NewBinary(op, pExpr, right.pExpr);
      zEnd := right.zEnd;
    }

    method ExprNot(doNot: bool)
      modifies this`pExpr
      ensures pExpr == Negate(doNot, old(pExpr))
    {
      if doNot {
        pExpr := Unary(NOT, pExpr);
      }
    }

    method SpanUnaryPostfix(op: UnOp, post: Tok)
      modifies this`pExpr, this`zEnd
      ensures pExpr == Unary(op, old(pExpr)) && zEnd == post.End()
    {
      pExpr := Unary(op, pExpr);
      zEnd := post.End();
    }

    method SpanUnaryPrefix(op: UnOp, operand: ExprSpan, pre: Tok)
      modifies this
      ensures pExpr == Unary(op, old(operand.pExpr)) && zStart == pre.z && zEnd == old(operand.zEnd)
    {
      pExpr, zStart, zEnd := Unary(op, operand.pExpr), pre.z, operand.zEnd;
    }

    method BinaryToUnaryIfNull(y: Expr, op: UnOp)
      modifies this`pExpr
      ensures pExpr == UnaryIfNull(y, old(pExpr), op)
    {
      if y.NullLit? && pExpr.Binary? {
        pExpr := Unary(op, pExpr.left);
      }
    }

    /** IN over a parenthesised list, in its three forms. */
    method InAction(list: seq<Expr>, doNot: bool, rp: Tok)
      modifies this`pExpr, this`zEnd
      ensures pExpr == BuildIn(old(pExpr), list, doNot) && zEnd == rp.End()
    {
      if |list| == 0 {
        pExpr := IntLit(if doNot then 1 else 0);
      } else if |list| == 1 {
        pExpr := Binary(if doNot then NE else EQ, pExpr, list[0]);
      } else {
        pExpr := In(pExpr, list);
        ExprNot(doNot);
      }
      zEnd := rp.End();
    }
  }

  /** Reducing an expression bottom up, one action per rule, leaves its tree and its span in the cell. */
  method Build(s: Surface) returns (p: ExprSpan)
    ensures fresh(p) && p.Spans(s)
    decreases s, 1
  {
    hide Toks, UnaryIfNull, DotTree, FormTree, FlatCase, BuildIn, Negate;
    match s {
      case Literal(tok, leaf) =>
        p := new ExprSpan(tok, leaf);
      case Paren(lp, e, rp) =>
        p := Build(e);
        p.SpanSet(lp, rp);
      case Variable(tok, id, isRegister) =>
        p := new ExprSpan(tok, Var(id));
        if isRegister {
          p.SpanSet(tok, tok);
          p.pExpr := Register(id);
        }
      case Dotted(nm, id, _, mid, last, lastId) =>
        p := new ExprSpan(nm, DotTree(id, mid, lastId));
        p.SpanSet(nm, last);
      case Bracket(first, _, items, last, form) =>
        var list := BuildItems(items);
        p := new ExprSpan(first, FormTree(form, list));
        p.SpanSet(first, last);
      case Cast(t, _, e, _, affinity, rp) =>
        var q := Build(e);
        p := new ExprSpan(t, CastTo(q.pExpr, affinity));
        p.SpanSet(t, rp);
      case Collate(e, _, nm, coll) =>
        p := Build(e);
        p.pExpr := Collated(p.pExpr, coll);
        p.zEnd := nm.End();
      case Infix(_, _, _, _) =>
        p := BuildOperator(s);
      case Is(_, _, _, _) =>
        p := BuildOperator(s);
      case Postfix(_, _, _, _) =>
        p := BuildOperator(s);
      case Prefix(_, _, _) =>
        p := BuildOperator(s);
      case CaseOf(_, _, _, _, _) =>
        p := BuildCase(s);
      case Like(_, _, _, _, _) =>
        p := BuildLike(s);
      case LikeEscape(_, _, _, _, _, _, _) =>
        p := BuildLike(s);
      case Betw(_, _, _, _, _, _) =>
        p := BuildBetween(s);
      case _ =>
        p := BuildInForm(s);
    }
  }

  /** The infix, postfix and prefix operators. */
  method BuildOperator(s: Surface) returns (p: ExprSpan)
    requires s.Infix? || s.Is? || s.Postfix? || s.Prefix?
    ensures fresh(p) && p.Spans(s)
    decreases s, 0
  {
    hide Toks, UnaryIfNull;
    match s {
      case Infix(l, _, op, r) =>
        p := Build(l);
        var q := Build(r);
        p.SpanBinaryExpr(op, q);
      case Is(l, _, neg, r) =>
        p := Build(l);
        var q := Build(r);
        p.SpanBinaryExpr(if neg then ISNOT else IS, q);
        p.BinaryToUnaryIfNull(q.pExpr, if neg then NOTNULL else ISNULL);
      case Postfix(e, isNull, _, last) =>
        p := Build(e);
        p.SpanUnaryPostfix(if isNull then ISNULL else NOTNULL, last);
      case Prefix(t, op, e) =>
        var q := Build(e);
        p := new ExprSpan(t, NullLit);
        p.SpanUnaryPrefix(op, q, t);
    }
  }

  method BuildLike(s: Surface) returns (p: ExprSpan)
    requires s.Like? || s.LikeEscape?
    ensures fresh(p) && p.Spans(s)
    decreases s, 0
  {
    hide Negate, Toks;
    match s {
      case Like(l, _, neg, f, r) =>
        p := Build(l);
        var q := Build(r);
        var list := [q.pExpr] + [p.pExpr];
        assert list == [Tree(r), Tree(l)];
        p.pExpr := Function(f, false, list);
        p.ExprNot(neg);
        p.zEnd := q.zEnd;
      case LikeEscape(l, _, neg, f, r, _, esc) =>
        p := Build(l);
        var q := Build(r);
        var x := Build(esc);
        var list := [q.pExpr] + [p.pExpr] + [x.pExpr];
        assert list == [Tree(r), Tree(l), Tree(esc)];
        p.pExpr := Function(f, false, list);
        p.ExprNot(neg);
        p.zEnd := x.zEnd;
    }
  }

  method BuildBetween(s: Surface) returns (p: ExprSpan)
    requires s.Betw?
    ensures fresh(p) && p.Spans(s)
    decreases s, 0
  {
    p := Build(s.e);
    var q := Build(s.lo);
    var x := Build(s.hi);
    var list := [q.pExpr] + [x.pExpr];
    assert list == [Tree(s.lo), Tree(s.hi)];
    p.pExpr := Between(p.pExpr, list);
    p.ExprNot(s.negated);
    p.zEnd := x.zEnd;
  }

  /** IN over a list, a subquery, or a table by name. */
  method BuildInForm(s: Surface) returns (p: ExprSpan)
    requires s.InList? || s.InNamed? || s.InSelect?
    ensures fresh(p) && p.Spans(s)
    decreases s, 0
  {
    hide Negate, BuildIn, Toks;
    match s {
      case InList(e, _, neg, _, items, rp) =>
        p := Build(e);
        var list := BuildItems(items);
        p.InAction(list, neg, rp);
      case InSelect(e, _, neg, _, _, items, rp, q) =>
        p := Build(e);
        var list := BuildItems(items);
        p.pExpr := InSelected(p.pExpr, q, list);
        p.ExprNot(neg);
        p.zEnd := rp.End();
      case InNamed(e, _, neg, id, nm, dbnm, _, args) =>
        p := Build(e);
        var list := [];
        if args.Some? { list := BuildItems(args.value.items); }
        p.pExpr := if dbnm.Some? then InTable(p.pExpr, Some(id), dbnm.value.id, list) else InTable(p.pExpr, None, id, list);
        p.ExprNot(neg);
        p.zEnd := if dbnm.Some? then dbnm.value.tok.End() else nm.End();
    }
  }

  /** A comma list, appended to from the left. */
  method BuildItems(items: seq<Item>) returns (list: seq<Expr>)
    ensures list == Trees(items)
    decreases items
  {
    list := [];
    for i := 0 to |items|
      invariant list + Trees(items[i..]) == Trees(items)
    {
      assert items[i] in items && items[i].e < items[i];
      var q := Build(items[i].e);
      list := list + [q.pExpr];
      assert items[i..][1..] == items[i + 1..];
    }
  }

  method BuildCase(s: Surface) returns (p: ExprSpan)
    requires s.CaseOf?
    ensures fresh(p) && p.Spans(s)
    decreases s, 0
  {
    hide FlatCase, Toks;
    var operand: Option<Expr> := None;
    if s.operand.Some? {
      var q := Build(s.operand.value);
      operand := Some(q.pExpr);
    }
    var list := BuildWhens(s.whens);
    if s.els.Some? {
      var q := Build(s.els.value.e);
      list := list + [q.pExpr];
    }
    assert list == FlatCase(s.whens) + ElseList(s.els);
    p := new ExprSpan(s.caseTok, NullLit);
    p.SpanSet(s.caseTok, s.endTok);
    p.pExpr := Case(operand, list);
  }

  /** The WHEN list: each clause appends its test and its result. */
  method BuildWhens(whens: seq<When>) returns (list: seq<Expr>)
    ensures list == FlatCase(whens)
    decreases whens
  {
    list := [];
    for i := 0 to |whens|
      invariant list + FlatCase(whens[i..]) == FlatCase(whens)
    {
      var w := whens[i];
      assert w in whens && w.cond < w && w.res < w;
      assert FlatCase(whens[i..]) == [Tree(w.cond), Tree(w.res)] + FlatCase(whens[i + 1..]) by {
        assert whens[i..][1..] == whens[i + 1..];
      }
      var q := Build(w.cond);
      var r := Build(w.res);
      hide Tree, FlatCase, Start, End;
      list := list + [q.pExpr];
      list := list + [r.pExpr];
    }
  }

  /** What the parser leaves for any expression: a tree with the text's meaning, and a span that covers its
      tokens exactly unless it ends in a table called with arguments. */
  method BuildChecked(env: Env, s: Surface) returns (p: ExprSpan)
    requires InOrder(Toks(s))
    ensures fresh(p) && Eval(env, p.pExpr) == Meaning(env, s)
    ensures Toks(s) != [] && p.zStart == Toks(s)[0].z && p.zStart < p.zEnd <= Last(Toks(s)).End()
    ensures p.zEnd == Last(Toks(s)).End() <==> !EndsInTableCall(s)
  {
    p := Build(s);
    TreeMeans(env, s);
    StartIsFirst(s);
    EndIsLast(s);
    StartBeforeEnd(s);
  }
}
