/** What expressions mean, in three-valued logic: the trees evaluate as the text means, and the flat CASE list can be
    taken apart again. */
module ExprMeaning {
  import opened Options
  import opened ExprTrees

  // --- Values and what trees mean ---

  datatype Value = Null | Val(v: int)

  function Bool(b: bool): Value { Val(if b then 1 else 0) }

  predicate IsTrue(v: Value) { v.Val? && v.v != 0 }

  predicate IsFalse(v: Value) { v.Val? && v.v == 0 }

  function Not(v: Value): Value {
    if v.Null? then Null else Bool(IsFalse(v))
  }

  function And(a: Value, b: Value): Value {
    if IsFalse(a) || IsFalse(b) then Bool(false) else if a.Null? || b.Null? then Null else Bool(true)
  }

  function Or(a: Value, b: Value): Value {
    if IsTrue(a) || IsTrue(b) then Bool(true) else if a.Null? || b.Null? then Null else Bool(false)
  }

  /** Everything the meaning depends on: names, comparisons of non-null values, functions and tables.  A subquery
      ranges over `rows`, an environment for each, and its value depends on what its expressions are in them. */
  datatype Env = Env(
    leaf: nat -> Value,
    same: (int, int) -> bool,
    less: (int, int) -> bool,
    arith: (nat, Value, Value) -> Value,
    complement: Value -> Value,
    fn: (nat, bool, seq<Value>) -> Value,
    member: (Option<nat>, nat, Value, seq<Value>) -> Value,
    variable: nat -> Value,
    register: nat -> Value,
    column: (Option<nat>, nat, nat) -> Value,
    collated: (nat, Value) -> Value,
    cast: (nat, Value) -> Value,
    vector: seq<Value> -> Value,
    raised: (nat, nat) -> Value,
    rows: nat -> seq<Env>,
    query: (nat, seq<seq<Value>>) -> Value,
    existence: (nat, seq<seq<Value>>) -> Value,
    selected: (nat, Value, seq<seq<Value>>) -> Value)
  {
    function Equal(a: Value, b: Value): Value {
      if a.Null? || b.Null? then Null else Bool(same(a.v, b.v))
    }

    function Less(a: Value, b: Value): Value {
      if a.Null? || b.Null? then Null else Bool(less(a.v, b.v))
    }

    function LessEq(a: Value, b: Value): Value { Not(Less(b, a)) }

    function NullSafeEqual(a: Value, b: Value): Value {
      if a.Null? || b.Null? then Bool(a.Null? && b.Null?) else Bool(same(a.v, b.v))
    }

    function UnaryValue(op: UnOp, v: Value): Value {
      match op
      case NOT => Not(v)
      case UMINUS => if v.Null? then Null else Val(-v.v)
      case UPLUS => v
      case BITNOT => complement(v)
      case ISNULL => Bool(v.Null?)
      case NOTNULL => Bool(v.Val?)
    }

    function BinaryValue(op: BinOp, a: Value, b: Value): Value {
      match op
      case AND => And(a, b)
      case OR => Or(a, b)
      case EQ => Equal(a, b)
      case NE => Not(Equal(a, b))
      case LT => Less(a, b)
      case LE => LessEq(a, b)
      case GT => Less(b, a)
      case GE => LessEq(b, a)
      case IS => NullSafeEqual(a, b)
      case ISNOT => Not(NullSafeEqual(a, b))
      case Arith(c) => arith(c, a, b)
    }

    /** Membership in a list of scalars. */
    function AnyEqual(x: Value, vs: seq<Value>): Value {
      if vs == [] then Bool(false) else Or(Equal(x, vs[0]), AnyEqual(x, vs[1..]))
    }

    function BetweenValue(x: Value, lo: Value, hi: Value): Value {
      And(LessEq(lo, x), LessEq(x, hi))
    }
  }

  /** The executor's reading of a tree. */
  function Eval(env: Env, e: Expr): Value
    decreases e
  {
    match e
    case NullLit => Null
    case IntLit(v) => Val(v)
    case Leaf(id) => env.leaf(id)
    case Unary(op, a) => env.UnaryValue(op, Eval(env, a))
    case Binary(op, l, r) => env.BinaryValue(op, Eval(env, l), Eval(env, r))
    case Between(x, list) =>
      if |list| == 2 then env.BetweenValue(Eval(env, x), Eval(env, list[0]), Eval(env, list[1])) else Null
    case In(x, list) => env.AnyEqual(Eval(env, x), EvalAll(env, list))
    case InTable(x, db, t, list) => env.member(db, t, Eval(env, x), EvalAll(env, list))
    case Function(f, distinct, list) => env.fn(f, distinct, EvalAll(env, list))
    case Var(id) => env.variable(id)
    case Register(id) => env.register(id)
    case Dot(Leaf(t), Leaf(c)) => env.column(None, t, c)
    case Dot(Leaf(d), Dot(Leaf(t), Leaf(c))) => env.column(Some(d), t, c)
    case Dot(_, _) => Null
    case Collated(a, coll) => env.collated(coll, Eval(env, a))
    case CastTo(a, affinity) => env.cast(affinity, Eval(env, a))
    case Vector(list) => env.vector(EvalAll(env, list))
    case SelectValue(q, list) => env.query(q, EvalRows(env.rows(q), list))
    case ExistsIn(q, list) => env.existence(q, EvalRows(env.rows(q), list))
    case InSelected(x, q, list) => env.selected(q, Eval(env, x), EvalRows(env.rows(q), list))
    case RaiseError(kind, msg) => env.raised(kind, msg)
    case Case(op, list) => EvalCase(env, (match op case None => None case Some(x) => Some(Eval(env, x))), list)
  }

  function EvalAll(env: Env, es: seq<Expr>): (vs: seq<Value>)
    ensures |vs| == |es|
    decreases es, 0
  {
    if es == [] then [] else [Eval(env, es[0])] + EvalAll(env, es[1..])
  }

  /** The expressions of a subquery, row by row. */
  function EvalRows(rows: seq<Env>, es: seq<Expr>): seq<seq<Value>>
    decreases es, 1 + |rows|
  {
    if rows == [] then [] else [EvalAll(rows[0], es)] + EvalRows(rows[1..], es)
  }

  /** A flat CASE list: pairs of test and result, and a lone last element for ELSE. */
  function EvalCase(env: Env, op: Option<Value>, list: seq<Expr>): Value
    decreases list
  {
    if list == [] then Null
    else if |list| == 1 then Eval(env, list[0])
    else if Chosen(env, op, Eval(env, list[0])) then Eval(env, list[1])
    else EvalCase(env, op, list[2..])
  }

  predicate Chosen(env: Env, op: Option<Value>, test: Value) {
    match op
    case None => IsTrue(test)
    case Some(v) => IsTrue(env.Equal(v, test))
  }

  // --- What the text means, clause by clause ---

  function Meaning(env: Env, s: Surface): Value
    decreases s
  {
    match s
    case Literal(_, leaf) => Eval(env, leaf)
    case Paren(_, e, _) => Meaning(env, e)
    case Variable(_, id, isRegister) => if isRegister then env.register(id) else env.variable(id)
    case Dotted(_, id, _, None, _, lastId) => env.column(None, id, lastId)
    case Dotted(_, id, _, Some(mid), _, lastId) => env.column(Some(id), mid.id, lastId)
    case Bracket(_, _, items, _, CallOf(f, distinct)) => env.fn(f, distinct, Meanings(env, items))
    case Bracket(_, _, items, _, VectorOf) => env.vector(Meanings(env, items))
    case Bracket(_, _, items, _, SelectOf(q)) => env.query(q, RowMeanings(env.rows(q), items))
    case Bracket(_, _, items, _, ExistsOf(q)) => env.existence(q, RowMeanings(env.rows(q), items))
    case Bracket(_, _, _, _, RaiseOf(kind, msg)) => env.raised(kind, msg)
    case Cast(_, _, e, _, affinity, _) => env.cast(affinity, Meaning(env, e))
    case Collate(e, _, _, coll) => env.collated(coll, Meaning(env, e))
    case Infix(l, _, op, r) => env.BinaryValue(op, Meaning(env, l), Meaning(env, r))
    case Is(l, _, neg, r) =>
      var v := env.NullSafeEqual(Meaning(env, l), Meaning(env, r));
      if neg then Not(v) else v
    case Postfix(e, isNull, _, _) => Bool(Meaning(env, e).Null? == isNull)
    case Prefix(_, op, e) => env.UnaryValue(op, Meaning(env, e))
    case Like(l, _, neg, f, r) =>
      var v := env.fn(f, false, [Meaning(env, r), Meaning(env, l)]);
      if neg then Not(v) else v
    case LikeEscape(l, _, neg, f, r, _, esc) =>
      var v := env.fn(f, false, [Meaning(env, r), Meaning(env, l), Meaning(env, esc)]);
      if neg then Not(v) else v
    case Betw(e, _, neg, lo, _, hi) =>
      var v := env.BetweenValue(Meaning(env, e), Meaning(env, lo), Meaning(env, hi));
      if neg then Not(v) else v
    case InList(e, _, neg, _, items, _) =>
      var v := env.AnyEqual(Meaning(env, e), Meanings(env, items));
      if neg then Not(v) else v
    case InNamed(e, _, neg, id, _, dbnm, _, args) =>
      var x, vs := Meaning(env, e), match args case None => [] case Some(a) => Meanings(env, a.items);
      var v := match dbnm case None => env.member(None, id, x, vs) case Some(t) => env.member(Some(id), t.id, x, vs);
      if neg then Not(v) else v
    case InSelect(e, _, neg, _, _, items, _, q) =>
      var v := env.selected(q, Meaning(env, e), RowMeanings(env.rows(q), items));
      if neg then Not(v) else v
    case CaseOf(_, op, whens, els, _) =>
      FirstMatch(env, (match op case None => None case Some(e) => Some(Meaning(env, e))), whens,
                 match els case None => Null case Some(x) => Meaning(env, x.e))
  }

  function Meanings(env: Env, items: seq<Item>): (vs: seq<Value>)
    ensures |vs| == |items|
    decreases items, 0
  {
    if items == [] then [] else [Meaning(env, items[0].e)] + Meanings(env, items[1..])
  }

  function RowMeanings(rows: seq<Env>, items: seq<Item>): seq<seq<Value>>
    decreases items, 1 + |rows|
  {
    if rows == [] then [] else [Meanings(rows[0], items)] + RowMeanings(rows[1..], items)
  }

  /** The result of the first WHEN that applies, else the ELSE value. */
  function FirstMatch(env: Env, op: Option<Value>, whens: seq<When>, otherwise: Value): Value
    decreases whens
  {
    if whens == [] then otherwise
    else
      var w := whens[0];
      assert w.cond < w && w.res < w;
      if Chosen(env, op, Meaning(env, w.cond)) then Meaning(env, w.res) else FirstMatch(env, op, whens[1..], otherwise)
  }

  // --- Meaning is preserved ---

  lemma {:induction false} IntegerMeaning(env: Env, e: Expr)
    ensures IntegerOf(e).Some? ==> Eval(env, e) == Val(IntegerOf(e).value)
  {
    match e
    case Unary(UPLUS, a) => IntegerMeaning(env, a);
    case Unary(UMINUS, a) => IntegerMeaning(env, a);
    case _ =>
  }

  /** The short cut for AND is sound even next to a NULL. */
  lemma ShortCutIsSound(env: Env, op: BinOp, l: Expr, r: Expr)
    ensures Eval(env, NewBinary(op, l, r)) == env.BinaryValue(op, Eval(env, l), Eval(env, r))
  {
    assert Eval(env, Binary(op, l, r)) == env.BinaryValue(op, Eval(env, l), Eval(env, r)) by {
      hide Env.BinaryValue;
    }
    assert Eval(env, IntLit(0)) == Bool(false);
    if AlwaysFalse(l) { AlwaysFalseIsFalse(env, l); }
    if AlwaysFalse(r) { AlwaysFalseIsFalse(env, r); }
    hide Eval, AlwaysFalse;
  }

  /** An integer under a row of signs. */
  function Signed(signs: seq<UnOp>, v: int): Expr {
    if signs == [] then IntLit(v) else Unary(signs[0], Signed(signs[1..], v))
  }

  ghost predicate SignedZero(e: Expr, signs: seq<UnOp>) {
    e == Signed(signs, 0) && forall i | 0 <= i < |signs| :: signs[i] == UPLUS || signs[i] == UMINUS
  }

  lemma {:induction false} ZeroHasSigns(e: Expr) returns (signs: seq<UnOp>)
    requires AlwaysFalse(e)
    ensures SignedZero(e, signs)
  {
    match e
    case Unary(op, a) =>
      var rest := ZeroHasSigns(a);
      signs := [op] + rest;
    case _ => signs := [];
  }

  lemma {:induction false} SignedZeroIsFalse(e: Expr, signs: seq<UnOp>)
    requires SignedZero(e, signs)
    ensures AlwaysFalse(e)
  {
    if signs != [] {
      SignedZeroIsFalse(e.arg, signs[1..]);
    }
  }

  /** A conjunction is replaced by 0 exactly when a side is the number zero, with any signs in front of it; no other
      operator ever is. */
  lemma FoldsExactly(op: BinOp, l: Expr, r: Expr)
    ensures NewBinary(op, l, r) == IntLit(0) <==>
            op == AND && exists signs :: SignedZero(l, signs) || SignedZero(r, signs)
    ensures NewBinary(op, l, r) != IntLit(0) ==> NewBinary(op, l, r) == Binary(op, l, r)
  {
    if AlwaysFalse(l) {
      var signs := ZeroHasSigns(l);
      assert SignedZero(l, signs) || SignedZero(r, signs);
    } else if AlwaysFalse(r) {
      var signs := ZeroHasSigns(r);
      assert SignedZero(l, signs) || SignedZero(r, signs);
    } else {
      forall signs
        ensures !SignedZero(l, signs) && !SignedZero(r, signs)
      {
        if SignedZero(l, signs) { SignedZeroIsFalse(l, signs); }
        if SignedZero(r, signs) { SignedZeroIsFalse(r, signs); }
      }
    }
  }

  lemma AlwaysFalseIsFalse(env: Env, e: Expr)
    requires AlwaysFalse(e)
    ensures IsFalse(Eval(env, e))
  {
    IntegerMeaning(env, e);
    hide Eval, IntegerOf;
  }

  /** IN with no, one or many listed scalars. */
  lemma InIsMembership(env: Env, x: Expr, list: seq<Expr>, doNot: bool)
    ensures var v := env.AnyEqual(Eval(env, x), EvalAll(env, list));
            Eval(env, BuildIn(x, list, doNot)) == if doNot then Not(v) else v
  {
    hide Eval, Negate;
    if list == [] {
      InNone(env, x, doNot);
    } else if |list| == 1 {
      assert list == [list[0]];
      InOne(env, x, list[0], doNot);
    } else {
      InMany(env, x, list, doNot);
    }
  }

  lemma InNone(env: Env, x: Expr, doNot: bool)
    ensures var v := env.AnyEqual(Eval(env, x), EvalAll(env, []));
            Eval(env, IntLit(if doNot then 1 else 0)) == if doNot then Not(v) else v
  {
  }

  lemma InOne(env: Env, x: Expr, y: Expr, doNot: bool)
    ensures var v := env.AnyEqual(Eval(env, x), EvalAll(env, [y]));
            Eval(env, Binary(if doNot then NE else EQ, x, y)) == if doNot then Not(v) else v
  {
    assert EvalAll(env, [y]) == [Eval(env, y)];
    var eq := env.Equal(Eval(env, x), Eval(env, y));
    assert env.AnyEqual(Eval(env, x), [Eval(env, y)]) == Or(eq, Bool(false)) == eq by {
      assert [Eval(env, y)][1..] == [];
    }
    hide EvalAll, Env.AnyEqual, Env.Equal, Or;
  }

  lemma InMany(env: Env, x: Expr, list: seq<Expr>, doNot: bool)
    ensures var v := env.AnyEqual(Eval(env, x), EvalAll(env, list));
            Eval(env, Negate(doNot, In(x, list))) == if doNot then Not(v) else v
  {
    hide EvalAll, Env.AnyEqual, Not;
  }

  /** IS and IS NOT, also when they turn into unary tests. */
  lemma IsIsNullSafe(env: Env, l: Expr, r: Expr, neg: bool)
    ensures var v := env.NullSafeEqual(Eval(env, l), Eval(env, r));
            Eval(env, UnaryIfNull(r, Binary(if neg then ISNOT else IS, l, r), if neg then NOTNULL else ISNULL))
            == if neg then Not(v) else v
  {
  }

  /** The tree means what the text means, for every expression and under every environment. */
  lemma {:induction false} TreeMeans(env: Env, s: Surface)
    ensures Eval(env, Tree(s)) == Meaning(env, s)
    decreases s, 1
  {
    hide Env.BinaryValue, NewBinary, UnaryIfNull, BuildIn, FormTree, FlatCase;
    match s
    case Literal(_, leaf) =>
    case Paren(_, e, _) => TreeMeans(env, e);
    case Infix(_, _, _, _) => OperatorMeans(env, s);
    case Is(_, _, _, _) => OperatorMeans(env, s);
    case Postfix(_, _, _, _) => OperatorMeans(env, s);
    case Prefix(_, _, _) => OperatorMeans(env, s);
    case Like(_, _, _, _, _) => LikeMeans(env, s);
    case LikeEscape(_, _, _, _, _, _, _) => LikeMeans(env, s);
    case Betw(_, _, _, _, _, _) => BetweenMeans(env, s);
    case CaseOf(_, _, _, _, _) => CaseOfMeans(env, s);
    case Variable(_, _, _) =>
    case Dotted(_, _, _, _, _, _) =>
    case Cast(_, _, e, _, _, _) => TreeMeans(env, e);
    case Collate(e, _, _, _) => TreeMeans(env, e);
    case Bracket(_, _, _, _, _) => BracketMeans(env, s);
    case InList(_, _, _, _, _, _) => InListMeans(env, s);
    case InNamed(_, _, _, _, _, _, _, _) => InNamedMeans(env, s);
    case InSelect(_, _, _, _, _, _, _, _) => InSelectMeans(env, s);
  }

  lemma {:induction false} OperatorMeans(env: Env, s: Surface)
    requires s.Infix? || s.Is? || s.Postfix? || s.Prefix?
    ensures Eval(env, Tree(s)) == Meaning(env, s)
    decreases s, 0
  {
    hide Env.BinaryValue, NewBinary, UnaryIfNull;
    match s
    case Infix(l, _, op, r) =>
      TreeMeans(env, l);
      TreeMeans(env, r);
      ShortCutIsSound(env, op, Tree(l), Tree(r));
    case Is(l, _, neg, r) =>
      TreeMeans(env, l);
      TreeMeans(env, r);
      IsIsNullSafe(env, Tree(l), Tree(r), neg);
    case Postfix(e, _, _, _) => TreeMeans(env, e);
    case Prefix(_, _, e) => TreeMeans(env, e);
  }

  lemma {:induction false} BetweenMeans(env: Env, s: Surface)
    requires s.Betw?
    ensures Eval(env, Tree(s)) == Meaning(env, s)
    decreases s, 0
  {
    hide Env.BetweenValue;
    TreeMeans(env, s.e);
    TreeMeans(env, s.lo);
    TreeMeans(env, s.hi);
  }

  lemma {:induction false} LikeMeans(env: Env, s: Surface)
    requires s.Like? || s.LikeEscape?
    ensures Eval(env, Tree(s)) == Meaning(env, s)
    decreases s, 0
  {
    TreeMeans(env, s.l);
    TreeMeans(env, s.r);
    if s.Like? {
      EvalList2(env, Tree(s.r), Tree(s.l));
    } else {
      TreeMeans(env, s.esc);
      EvalList3(env, Tree(s.r), Tree(s.l), Tree(s.esc));
    }
  }

  lemma {:induction false} BracketMeans(env: Env, s: Surface)
    requires s.Bracket?
    ensures Eval(env, Tree(s)) == Meaning(env, s)
    decreases s, 0
  {
    hide EvalAll, EvalRows, Meanings, RowMeanings, Trees;
    match s.form
    case SelectOf(q) => RowsMean(env.rows(q), s.items);
    case ExistsOf(q) => RowsMean(env.rows(q), s.items);
    case _ => TreesMean(env, s.items);
  }

  lemma {:induction false} InListMeans(env: Env, s: Surface)
    requires s.InList?
    ensures Eval(env, Tree(s)) == Meaning(env, s)
    decreases s, 0
  {
    TreeMeans(env, s.e);
    TreesMean(env, s.items);
    InIsMembership(env, Tree(s.e), Trees(s.items), s.negated);
    hide Eval, BuildIn, Trees;
  }

  lemma {:induction false} InNamedMeans(env: Env, s: Surface)
    requires s.InNamed?
    ensures Eval(env, Tree(s)) == Meaning(env, s)
    decreases s, 0
  {
    TreeMeans(env, s.e);
    if s.args.Some? { TreesMean(env, s.args.value.items); }
  }

  lemma {:induction false} InSelectMeans(env: Env, s: Surface)
    requires s.InSelect?
    ensures Eval(env, Tree(s)) == Meaning(env, s)
    decreases s, 0
  {
    TreeMeans(env, s.e);
    RowsMean(env.rows(s.q), s.items);
  }

  lemma {:induction false} CaseOfMeans(env: Env, s: Surface)
    requires s.CaseOf?
    ensures Eval(env, Tree(s)) == Meaning(env, s)
    decreases s, 0
  {
    if s.operand.Some? { TreeMeans(env, s.operand.value); }
    if s.els.Some? { TreeMeans(env, s.els.value.e); }
    CaseMeans(env, (match s.operand case None => None case Some(e) => Some(Meaning(env, e))), s.whens, s.els);
  }

  /** In every row of a subquery its expressions mean what was written. */
  lemma {:induction false} RowsMean(rows: seq<Env>, items: seq<Item>)
    ensures EvalRows(rows, Trees(items)) == RowMeanings(rows, items)
    decreases items, 1 + |rows|
  {
    if rows != [] {
      TreesMean(rows[0], items);
      RowsMean(rows[1..], items);
    }
  }

  lemma {:induction false} TreesMean(env: Env, items: seq<Item>)
    ensures EvalAll(env, Trees(items)) == Meanings(env, items)
    decreases items, 0
  {
    if items != [] {
      assert items[0].e < items[0];
      TreeMeans(env, items[0].e);
      TreesMean(env, items[1..]);
      assert Trees(items)[1..] == Trees(items[1..]);
    }
  }

  lemma EvalList2(env: Env, a: Expr, b: Expr)
    ensures EvalAll(env, [a, b]) == [Eval(env, a), Eval(env, b)]
  {
    assert [a, b][1..] == [b] && [b][1..] == [];
  }

  lemma EvalList3(env: Env, a: Expr, b: Expr, c: Expr)
    ensures EvalAll(env, [a, b, c]) == [Eval(env, a), Eval(env, b), Eval(env, c)]
  {
    assert [a, b, c][1..] == [b, c];
    EvalList2(env, b, c);
  }

  /** Reading the flat list by pairs picks the first WHEN that applies. */
  lemma {:induction false} CaseMeans(env: Env, op: Option<Value>, whens: seq<When>, els: Option<Else>)
    requires els.Some? ==> Eval(env, Tree(els.value.e)) == Meaning(env, els.value.e)
    ensures EvalCase(env, op, FlatCase(whens) + ElseList(els))
         == FirstMatch(env, op, whens, match els case None => Null case Some(x) => Meaning(env, x.e))
    decreases whens
  {
    hide Tree, Eval, Meaning, FlatCase, Chosen;
    var list := FlatCase(whens) + ElseList(els);
    FlatCaseShape(whens, els);
    if whens != [] {
      var w := whens[0];
      assert w.cond < w && w.res < w;
      TreeMeans(env, w.cond);
      TreeMeans(env, w.res);
      CaseMeans(env, op, whens[1..], els);
    }
  }

  /** The list starts with the first clause and goes on with the others, or is what ELSE left. */
  lemma FlatCaseShape(whens: seq<When>, els: Option<Else>)
    ensures var list := FlatCase(whens) + ElseList(els);
            if whens == [] then list == ElseList(els)
            else && |list| >= 2 && list[0] == Tree(whens[0].cond) && list[1] == Tree(whens[0].res)
                 && list[2..] == FlatCase(whens[1..]) + ElseList(els)
  {
    hide Tree, ElseList;
    if whens != [] {
      PairInFront(Tree(whens[0].cond), Tree(whens[0].res), FlatCase(whens[1..]), ElseList(els));
    } else {
      assert [] + ElseList(els) == ElseList(els);
    }
  }

  lemma PairInFront(a: Expr, b: Expr, list: seq<Expr>, end: seq<Expr>)
    ensures var l := [a, b] + list + end;
            |l| >= 2 && l[0] == a && l[1] == b && l[2..] == list + end
  {
  }

  // --- The CASE list can be taken apart again ---

  /** Splitting a flat list by parity. */
  function Pairs(list: seq<Expr>): seq<(Expr, Expr)> {
    if |list| < 2 then [] else [(list[0], list[1])] + Pairs(list[2..])
  }

  function Remainder(list: seq<Expr>): Option<Expr> {
    if |list| % 2 == 1 then Some(list[|list| - 1]) else None
  }

  function WhenPairs(whens: seq<When>): (ps: seq<(Expr, Expr)>)
    ensures |ps| == |whens|
  {
    seq(|whens|, i requires 0 <= i < |whens| => (Tree(whens[i].cond), Tree(whens[i].res)))
  }

  /** For any number of WHEN clauses: the list has odd length exactly when ELSE is present, and splitting it by
      parity gives back the pairs and the ELSE. */
  lemma {:induction false} CaseRoundTrip(whens: seq<When>, els: Option<Else>)
    ensures var list := FlatCase(whens) + ElseList(els);
            && (|list| % 2 == 1 <==> els.Some?)
            && Pairs(list) == WhenPairs(whens)
            && Remainder(list) == (match els case None => None case Some(x) => Some(Tree(x.e)))
  {
    hide Tree, FlatCase;
    var list := FlatCase(whens) + ElseList(els);
    FlatCaseShape(whens, els);
    if whens != [] {
      CaseRoundTrip(whens[1..], els);
      assert WhenPairs(whens) == [(list[0], list[1])] + WhenPairs(whens[1..]);
    }
  }
}
