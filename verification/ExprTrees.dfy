/** Expressions as written, token by token, and the trees the parser builds for them. */
module ExprTrees {
  import opened Options

  /** A token's place in the text. */
  datatype Tok = Tok(z: nat, n: nat)
  {
    function End(): nat { z + n }
  }

  // --- The tree ---

  datatype UnOp = NOT | UMINUS | UPLUS | BITNOT | ISNULL | NOTNULL
  datatype BinOp = AND | OR | EQ | NE | LT | LE | GT | GE | IS | ISNOT | Arith(code: nat)

  datatype Expr =
    | NullLit
    | IntLit(v: int)
    | Leaf(id: nat)
    | Unary(uop: UnOp, arg: Expr)
    | Binary(bop: BinOp, left: Expr, right: Expr)
    | Between(x: Expr, list: seq<Expr>)
    | In(x: Expr, list: seq<Expr>)
    | InTable(x: Expr, zDatabase: Option<nat>, zName: nat, list: seq<Expr>)
    | Function(name: nat, distinct: bool, list: seq<Expr>)
    | Case(operand: Option<Expr>, list: seq<Expr>)
    | Var(id: nat)
    | Register(id: nat)
    | Dot(left: Expr, right: Expr)
    | Collated(arg: Expr, coll: nat)
    | CastTo(arg: Expr, affinity: nat)
    | Vector(list: seq<Expr>)
    | SelectValue(q: nat, list: seq<Expr>)
    | ExistsIn(q: nat, list: seq<Expr>)
    | InSelected(x: Expr, q: nat, list: seq<Expr>)
    | RaiseError(kind: nat, msg: nat)

  // --- The text: expressions with all their tokens ---

  /** A list item and the separators after it. */
  datatype Item = Item(e: Surface, seps: seq<Tok>)

  datatype When = When(whenTok: Tok, cond: Surface, thenTok: Tok, res: Surface)

  /** What stands between a first and a last token of its own: a call (`f(*)` has no items), a row value, a
      subquery, EXISTS, or RAISE.  The expressions inside a subquery are its items. */
  datatype Form =
    | CallOf(fname: nat, distinct: bool)
    | VectorOf
    | SelectOf(q: nat)
    | ExistsOf(q: nat)
    | RaiseOf(kind: nat, msg: nat)

  /** The middle name of three, with the dot after it. */
  datatype Mid = Mid(tok: Tok, id: nat, dot: Tok)

  /** The second name of a table written with two. */
  datatype Named = Named(tok: Tok, id: nat)

  /** A `Literal` is any expression of one token: constants, plain names, the current time and date. */
  datatype Surface =
    | Literal(tok: Tok, leaf: Expr)
    | Variable(tok: Tok, id: nat, isRegister: bool)
    | Dotted(nm: Tok, id: nat, dotTok: Tok, mid: Option<Mid>, last: Tok, lastId: nat)
    | Paren(lp: Tok, e: Surface, rp: Tok)
    | Bracket(first: Tok, head: seq<Tok>, items: seq<Item>, last: Tok, form: Form)
    | Cast(castTok: Tok, lp: Tok, e: Surface, asToks: seq<Tok>, affinity: nat, rp: Tok)
    | Collate(e: Surface, collTok: Tok, nm: Tok, coll: nat)
    | Infix(l: Surface, opTok: Tok, op: BinOp, r: Surface)
    | Is(l: Surface, isToks: seq<Tok>, negated: bool, r: Surface)
    | Postfix(e: Surface, isNull: bool, toks: seq<Tok>, last: Tok)
    | Prefix(opTok: Tok, uop: UnOp, e: Surface)
    | Like(l: Surface, likeToks: seq<Tok>, negated: bool, fname: nat, r: Surface)
    | LikeEscape(l: Surface, likeToks: seq<Tok>, negated: bool, fname: nat, r: Surface, escTok: Tok, esc: Surface)
    | Betw(e: Surface, opToks: seq<Tok>, negated: bool, lo: Surface, andTok: Tok, hi: Surface)
    | InList(e: Surface, inToks: seq<Tok>, negated: bool, lp: Tok, items: seq<Item>, rp: Tok)
    | InNamed(e: Surface, inToks: seq<Tok>, negated: bool, id: nat, nm: Tok, dbnm: Option<Named>, dot: seq<Tok>,
              args: Option<Args>)
    | InSelect(e: Surface, inToks: seq<Tok>, negated: bool, lp: Tok, head: seq<Tok>, items: seq<Item>, rp: Tok, q: nat)
    | CaseOf(caseTok: Tok, operand: Option<Surface>, whens: seq<When>, els: Option<Else>, endTok: Tok)

  datatype Args = Args(lp: Tok, items: seq<Item>, rp: Tok)

  datatype Else = Else(elseTok: Tok, e: Surface)

  // --- The reduce actions ---

  function Negate(doNot: bool, e: Expr): Expr {
    if doNot then Unary(NOT, e) else e
  }

  /** The value of an integer constant, through unary plus and minus. */
  function IntegerOf(e: Expr): Option<int> {
    match e
    case IntLit(v) => Some(v)
    case Unary(UPLUS, a) => IntegerOf(a)
    case Unary(UMINUS, a) => (match IntegerOf(a) case Some(v) => Some(-v) case None => None)
    case _ => None
  }

  predicate AlwaysFalse(e: Expr) {
    IntegerOf(e) == Some(0)
  }

  /** A new node, with the short cut for a conjunction that cannot hold. */
  function NewBinary(op: BinOp, l: Expr, r: Expr): Expr {
    if op == AND && (AlwaysFalse(l) || AlwaysFalse(r)) then IntLit(0) else Binary(op, l, r)
  }

  /** `IS NULL` and `IS NOT NULL` written with a literal NULL become unary tests. */
  function UnaryIfNull(y: Expr, a: Expr, op: UnOp): Expr {
    if y.NullLit? && a.Binary? then Unary(op, a.left) else a
  }

  function BuildIn(x: Expr, list: seq<Expr>, doNot: bool): Expr {
    if list == [] then IntLit(if doNot then 1 else 0)
    else if |list| == 1 then Binary(if doNot then NE else EQ, x, list[0])
    else Negate(doNot, In(x, list))
  }

  function DotTree(id: nat, mid: Option<Mid>, lastId: nat): Expr {
    match mid
    case None => Dot(Leaf(id), Leaf(lastId))
    case Some(m) => Dot(Leaf(id), Dot(Leaf(m.id), Leaf(lastId)))
  }

  /** With two names the first is the database. */
  function TableTree(x: Expr, id: nat, dbnm: Option<Named>, list: seq<Expr>): Expr {
    match dbnm
    case None => InTable(x, None, id, list)
    case Some(t) => InTable(x, Some(id), t.id, list)
  }

  function FormTree(form: Form, list: seq<Expr>): Expr {
    match form
    case CallOf(f, distinct) => Function(f, distinct, list)
    case VectorOf => Vector(list)
    case SelectOf(q) => SelectValue(q, list)
    case ExistsOf(q) => ExistsIn(q, list)
    case RaiseOf(kind, msg) => RaiseError(kind, msg)
  }

  /** The tree built for an expression. */
  function Tree(s: Surface): Expr {
    match s
    case Literal(_, leaf) => leaf
    case Paren(_, e, _) => Tree(e)
    case Variable(_, id, isRegister) => if isRegister then Register(id) else Var(id)
    case Dotted(_, id, _, mid, _, lastId) => DotTree(id, mid, lastId)
    case Bracket(_, _, items, _, form) => FormTree(form, Trees(items))
    case Cast(_, _, e, _, affinity, _) => CastTo(Tree(e), affinity)
    case Collate(e, _, _, coll) => Collated(Tree(e), coll)
    case Infix(l, _, op, r) => NewBinary(op, Tree(l), Tree(r))
    case Is(l, _, neg, r) =>
      UnaryIfNull(Tree(r), Binary(if neg then ISNOT else IS, Tree(l), Tree(r)), if neg then NOTNULL else ISNULL)
    case Postfix(e, isNull, _, _) => Unary(if isNull then ISNULL else NOTNULL, Tree(e))
    case Prefix(_, op, e) => Unary(op, Tree(e))
    case Like(l, _, neg, f, r) => Negate(neg, Function(f, false, [Tree(r), Tree(l)]))
    case LikeEscape(l, _, neg, f, r, _, esc) => Negate(neg, Function(f, false, [Tree(r), Tree(l), Tree(esc)]))
    case Betw(e, _, neg, lo, _, hi) => Negate(neg, Between(Tree(e), [Tree(lo), Tree(hi)]))
    case InList(e, _, neg, _, items, _) => BuildIn(Tree(e), Trees(items), neg)
    case InNamed(e, _, neg, id, _, dbnm, _, args) =>
      Negate(neg, TableTree(Tree(e), id, dbnm, match args case None => [] case Some(a) => Trees(a.items)))
    case InSelect(e, _, neg, _, _, items, _, q) => Negate(neg, InSelected(Tree(e), q, Trees(items)))
    case CaseOf(_, op, whens, els, _) =>
      Case((match op case None => None case Some(e) => Some(Tree(e))),
           FlatCase(whens) + ElseList(els))
  }

  function Trees(items: seq<Item>): (es: seq<Expr>)
    ensures |es| == |items|
  {
    if items == [] then [] else [Tree(items[0].e)] + Trees(items[1..])
  }

  function FlatCase(whens: seq<When>): (es: seq<Expr>)
    ensures |es| == 2 * |whens|
  {
    if whens == [] then [] else 
      var w := whens[0];
      assert w.cond < w && w.res < w;
      [Tree(w.cond), Tree(w.res)] + FlatCase(whens[1..])
  }

  function ElseList(els: Option<Else>): (es: seq<Expr>)
    ensures |es| <= 1
  {
    match els
    case None => []
    case Some(x) => [Tree(x.e)]
  }
}
