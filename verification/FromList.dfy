/** FROM lists: the reduce actions for tables, table functions, subqueries and parenthesised lists.  Lists are
    heap objects updated in place; the memory their items own is counted, so that nothing is freed twice or lost. */
module FromList {
  import opened Options

  type Id = nat
  type JoinType = bv8

  // --- Lists as the code generator sees them ---

  datatype Index = NoIndex | NotIndexed | IndexedBy(z: Id)

  datatype Extra = Hint(index: Index) | TabFunc(pFuncArg: Option<Id>)

  datatype Item = Item(
    zDatabase: Option<Id>,
    zName: Option<Id>,
    zAlias: Option<Id>,
    pSelect: Option<Sub>,
    jointype: JoinType,
    u1: Extra,
    pOn: Option<Id>,
    pUsing: Option<Id>)

  /** A SELECT in place of a table: one written in the text, or the wrapper around a nested list. */
  datatype Sub = Query(id: Id) | NestedFrom(pSrc: seq<Item>)

  // --- Lists as written ---

  datatype Tail = Tail(alias: Option<Id>, on: Option<Id>, using: Option<Id>)
  {
    predicate Joins() { on.Some? || using.Some? }

    predicate Bare() { this == Tail(None, None, None) }
  }

  datatype Source =
    | Table(nm: Id, dbnm: Option<Id>, index: Index, tail: Tail)
    | Call(nm: Id, dbnm: Option<Id>, args: Option<Id>, tail: Tail)
    | Subquery(id: Id, tail: Tail)
    | Nested(inner: Terms, tail: Tail)

  datatype Terms = First(s: Source) | More(front: Terms, op: JoinType, s: Source)

  // --- What each reduce action makes of its operands ---

  function TableName(nm: Id, dbnm: Option<Id>): Id {
    match dbnm case None => nm case Some(t) => t
  }

  function DatabaseName(nm: Id, dbnm: Option<Id>): Option<Id> {
    match dbnm case None => None case Some(_) => Some(nm)
  }

  datatype Names = Names(nm: Id, dbnm: Option<Id>)

  function TermItem(names: Option<Names>, sub: Option<Sub>, tail: Tail): Item {
    Item(match names case None => None case Some(n) => DatabaseName(n.nm, n.dbnm),
         match names case None => None case Some(n) => Some(TableName(n.nm, n.dbnm)),
         tail.alias, sub, 0, Hint(NoIndex), tail.on, tail.using)
  }

  /** The single item of an inner list, moved out with only its names and subquery. */
  function MovedItem(it: Item, tail: Tail): Item {
    TermItem(None, it.pSelect, tail).(zDatabase := it.zDatabase, zName := it.zName)
  }

  /** An ON or USING clause needs something to its left. */
  function Append(prefix: seq<Item>, item: Item): Option<seq<Item>> {
    if prefix == [] && (item.pOn.Some? || item.pUsing.Some?) then None else Some(prefix + [item])
  }

  /** Each join operator goes from its left operand to its right one. */
  function Shifted(s: seq<Item>): (r: seq<Item>)
    ensures |r| == |s| && forall i | 0 <= i < |s| :: ShiftedAt(s, r, i)
  {
    seq(|s|, i requires 0 <= i < |s| => s[i].(jointype := if i == 0 then 0 else s[i - 1].jointype))
  }

  predicate ShiftedAt(s: seq<Item>, r: seq<Item>, i: nat)
    requires i < |s| == |r|
  {
    r[i] == s[i].(jointype := if i == 0 then 0 else s[i - 1].jointype)
  }

  function WithJoin(s: seq<Item>, op: JoinType): (r: seq<Item>)
    requires s != []
  {
    s[|s| - 1 := s[|s| - 1].(jointype := op)]
  }

  /** A parenthesised list after a prefix: taken over, moved out of, or wrapped. */
  function NestedList(prefix: seq<Item>, inner: seq<Item>, tail: Tail): Option<seq<Item>>
    requires inner != []
  {
    if prefix == [] && tail.Bare() then Some(inner)
    else if |inner| == 1 then Append(prefix, MovedItem(inner[0], tail))
    else Append(prefix, TermItem(None, Some(NestedFrom(Shifted(inner))), tail))
  }

  function PlainItem(s: Source): Item
    requires !s.Nested?
  {
    match s
    case Table(nm, dbnm, index, tail) => TermItem(Some(Names(nm, dbnm)), None, tail).(u1 := Hint(index))
    case Call(nm, dbnm, args, tail) => TermItem(Some(Names(nm, dbnm)), None, tail).(u1 := TabFunc(args))
    case Subquery(id, tail) => TermItem(None, Some(Query(id)), tail)
  }

  function AddSource(prefix: seq<Item>, s: Source): (r: Option<seq<Item>>)
    ensures r.Some? ==> r.value != []
    decreases s
  {
    if !s.Nested? then Append(prefix, PlainItem(s)) else
      match Built(s.inner)
      case None => None
      case Some(list) => NestedList(prefix, list, s.tail)
  }

  /** The list built for a FROM clause, join operators still on their left operands; nothing after an error. */
  function Built(t: Terms): (r: Option<seq<Item>>)
    ensures r.Some? ==> r.value != []
    decreases t
  {
    match t
    case First(s) => AddSource([], s)
    case More(front, op, s) =>
      match Built(front)
      case None => None
      case Some(p) => AddSource(WithJoin(p, op), s)
  }

  // --- What was written, in order ---

  /** Which details to look at, besides the sources, the join operators and the ON and USING clauses. */
  datatype Watch = Watch(aliases: bool, hints: bool, calls: bool)

  const NOTHING := Watch(false, false, false)
  const EVERYTHING := Watch(true, true, true)

  /** A source is a table or a subquery; what is attached to it follows it. */
  datatype Leaf =
    | TableLeaf(zDatabase: Option<Id>, zName: Option<Id>)
    | QueryLeaf(id: Id)
    | ExtraLeaf(u1: Extra)
    | AliasLeaf(zAlias: Id)
    | OnLeaf(pOn: Id)
    | UsingLeaf(pUsing: Id)
    | Join(op: JoinType)

  function ExtraLeaves(w: Watch, u1: Extra): seq<Leaf> {
    match u1
    case Hint(NoIndex) => []
    case Hint(_) => if w.hints then [ExtraLeaf(u1)] else []
    case TabFunc(_) => if w.calls then [ExtraLeaf(u1)] else []
  }

  function AliasLeaves(w: Watch, zAlias: Option<Id>): seq<Leaf> {
    if w.aliases && zAlias.Some? then [AliasLeaf(zAlias.value)] else []
  }

  function ClauseLeaves(pOn: Option<Id>, pUsing: Option<Id>): seq<Leaf> {
    (if pOn.Some? then [OnLeaf(pOn.value)] else []) + if pUsing.Some? then [UsingLeaf(pUsing.value)] else []
  }

  function TailLeaves(w: Watch, tail: Tail): seq<Leaf> {
    AliasLeaves(w, tail.alias) + ClauseLeaves(tail.on, tail.using)
  }

  /** The details of an item that a move leaves behind. */
  function Details(w: Watch, it: Item): seq<Leaf> {
    ExtraLeaves(w, it.u1) + AliasLeaves(w, it.zAlias)
  }

  function CoreLeaves(w: Watch, it: Item): seq<Leaf>
    decreases it, 0
  {
    match it.pSelect
    case None => [TableLeaf(it.zDatabase, it.zName)]
    case Some(Query(id)) => [QueryLeaf(id)]
    case Some(NestedFrom(list)) => ListLeaves(w, list)
  }

  function ItemLeaves(w: Watch, it: Item): seq<Leaf>
    decreases it, 1
  {
    CoreLeaves(w, it) + Details(w, it) + ClauseLeaves(it.pOn, it.pUsing)
  }

  /** A finished list: the operator of each item joins it to what is on its left. */
  function ListLeaves(w: Watch, s: seq<Item>): seq<Leaf>
    decreases s
  {
    if s == [] then []
    else
      var last := s[|s| - 1];
      (if |s| == 1 then [] else ListLeaves(w, s[..|s| - 1]) + [Join(last.jointype)]) + ItemLeaves(w, last)
  }

  /** A list under construction: the operator of each item but the last joins it to what is on its right. */
  function OpenLeaves(w: Watch, s: seq<Item>): seq<Leaf>
    decreases s
  {
    if s == [] then []
    else (if |s| == 1 then [] else OpenLeaves(w, s[..|s| - 1]) + [Join(s[|s| - 2].jointype)]) + ItemLeaves(w, s[|s| - 1])
  }

  /** The text read off without regard to parentheses. */
  function TextLeaves(w: Watch, t: Terms): seq<Leaf>
    decreases t
  {
    match t
    case First(s) => SourceLeaves(w, s)
    case More(front, op, s) => TextLeaves(w, front) + [Join(op)] + SourceLeaves(w, s)
  }

  /** `t` is a table, `d.t` a table of the database `d`. */
  function NamedLeaf(nm: Id, dbnm: Option<Id>): Leaf {
    match dbnm
    case None => TableLeaf(None, Some(nm))
    case Some(t) => TableLeaf(Some(nm), Some(t))
  }

  function SourceLeaves(w: Watch, s: Source): seq<Leaf>
    decreases s
  {
    match s
    case Table(nm, dbnm, index, tail) => [NamedLeaf(nm, dbnm)] + ExtraLeaves(w, Hint(index)) + TailLeaves(w, tail)
    case Call(nm, dbnm, args, tail) => [NamedLeaf(nm, dbnm)] + ExtraLeaves(w, TabFunc(args)) + TailLeaves(w, tail)
    case Subquery(id, tail) => [QueryLeaf(id)] + TailLeaves(w, tail)
    case Nested(inner, tail) => TextLeaves(w, inner) + TailLeaves(w, tail)
  }

  // --- Conservation ---

  lemma {:induction false} ShiftKeepsLeaves(w: Watch, s: seq<Item>)
    ensures ListLeaves(w, Shifted(s)) == OpenLeaves(w, s)
  {
    hide ItemLeaves, Shifted;
    if s != [] {
      ShiftKeepsLeaves(w, s[..|s| - 1]);
      ShiftedFront(s);
      var r := Shifted(s);
      assert ShiftedAt(s, r, |s| - 1);
      SameItemLeaves(w, r[|r| - 1], s[|s| - 1]);
      hide ShiftedAt;
    }
  }

  lemma ShiftedFront(s: seq<Item>)
    requires s != []
    ensures Shifted(s)[..|s| - 1] == Shifted(s[..|s| - 1])
  {
  }

  lemma SameItemLeaves(w: Watch, a: Item, b: Item)
    requires a.(jointype := b.jointype) == b
    ensures ItemLeaves(w, a) == ItemLeaves(w, b)
  {
  }

  lemma AppendLeaves(w: Watch, prefix: seq<Item>, op: JoinType, it: Item)
    ensures prefix == [] ==> OpenLeaves(w, prefix + [it]) == ItemLeaves(w, it)
    ensures prefix != [] ==>
      OpenLeaves(w, WithJoin(prefix, op) + [it]) == OpenLeaves(w, prefix) + [Join(op)] + ItemLeaves(w, it)
  {
    if prefix != [] {
      var p := WithJoin(prefix, op);
      var s := p + [it];
      assert s[..|s| - 1] == p && s[|s| - 2].jointype == op;
      LastJoinIsIdle(w, prefix, op);
    } else {
      assert prefix + [it] == [it];
    }
  }

  lemma LastJoinIsIdle(w: Watch, s: seq<Item>, op: JoinType)
    requires s != []
    ensures OpenLeaves(w, WithJoin(s, op)) == OpenLeaves(w, s)
  {
    hide ItemLeaves, CoreLeaves, Details, ClauseLeaves;
    var r := WithJoin(s, op);
    assert r[..|r| - 1] == s[..|s| - 1];
    SameItemLeaves(w, r[|r| - 1], s[|s| - 1]);
  }

  /** Somewhere a lone source with a watched detail is moved out of its parentheses. */
  predicate LosesDetail(w: Watch, t: Terms)
    decreases t
  {
    match t
    case First(s) => SourceLosesDetail(w, s, true)
    case More(front, _, s) => LosesDetail(w, front) || SourceLosesDetail(w, s, false)
  }

  /** The parentheses of a source that starts its list and has nothing after it are simply dropped. */
  predicate SourceLosesDetail(w: Watch, s: Source, atStart: bool)
    decreases s
  {
    match s
    case Nested(inner, tail) => LosesDetail(w, inner) || (!(atStart && tail.Bare()) && LoneDetail(w, inner))
    case _ => false
  }

  /** A list of a single source, perhaps in further bare parentheses, that carries a watched detail. */
  predicate LoneDetail(w: Watch, t: Terms)
    decreases t
  {
    match t
    case First(Table(_, _, index, tail)) => (w.hints && index != NoIndex) || (w.aliases && tail.alias.Some?)
    case First(Call(_, _, _, tail)) => w.calls || (w.aliases && tail.alias.Some?)
    case First(Subquery(_, tail)) => w.aliases && tail.alias.Some?
    case First(Nested(inner, tail)) => if tail.Bare() then LoneDetail(w, inner) else w.aliases && tail.alias.Some?
    case More(_, _, _) => false
  }

  /** One of the details looked at. */
  predicate IsDetail(w: Watch, l: Leaf) {
    match l
    case ExtraLeaf(TabFunc(_)) => w.calls
    case ExtraLeaf(Hint(_)) => w.hints
    case AliasLeaf(_) => w.aliases
    case _ => false
  }

  /** `r` is `text`, in order, with nothing missing but watched details. */
  predicate Thinned(w: Watch, r: seq<Leaf>, text: seq<Leaf>)
    decreases |text|
  {
    if text == [] then r == []
    else
      || (r != [] && r[0] == text[0] && Thinned(w, r[1..], text[1..]))
      || (IsDetail(w, text[0]) && Thinned(w, r, text[1..]))
  }

  /** `r` is the text with nothing missing but watched details, and some missing exactly when `lost`. */
  predicate Kept(w: Watch, r: seq<Leaf>, text: seq<Leaf>, lost: bool) {
    Thinned(w, r, text) && if lost then |r| < |text| else r == text
  }

  lemma {:induction false} AllThere(w: Watch, text: seq<Leaf>)
    ensures Thinned(w, text, text)
    decreases |text|
  {
    if text != [] {
      AllThere(w, text[1..]);
    }
  }

  lemma {:induction false} ThinnedConcat(w: Watch, r1: seq<Leaf>, t1: seq<Leaf>, r2: seq<Leaf>, t2: seq<Leaf>)
    requires Thinned(w, r1, t1) && Thinned(w, r2, t2)
    ensures Thinned(w, r1 + r2, t1 + t2)
    decreases |t1|
  {
    hide IsDetail;
    if t1 == [] {
      assert r1 + r2 == r2 && t1 + t2 == t2;
    } else if r1 != [] && r1[0] == t1[0] && Thinned(w, r1[1..], t1[1..]) {
      ThinnedConcat(w, r1[1..], t1[1..], r2, t2);
      assert (r1 + r2)[1..] == r1[1..] + r2 && (t1 + t2)[1..] == t1[1..] + t2;
    } else {
      ThinnedConcat(w, r1, t1[1..], r2, t2);
      assert (t1 + t2)[1..] == t1[1..] + t2;
    }
  }

  /** Details at the end may go too. */
  lemma {:induction false} ThinnedFurther(w: Watch, r: seq<Leaf>, d: seq<Leaf>, text: seq<Leaf>)
    requires Thinned(w, r + d, text) && forall i | 0 <= i < |d| :: IsDetail(w, d[i])
    ensures Thinned(w, r, text)
    decreases |text|
  {
    hide IsDetail;
    if text == [] {
      assert r + d == [];
    } else if r + d != [] && (r + d)[0] == text[0] && Thinned(w, (r + d)[1..], text[1..]) {
      if r != [] {
        assert (r + d)[1..] == r[1..] + d;
        ThinnedFurther(w, r[1..], d, text[1..]);
      } else {
        assert (r + d)[1..] == [] + d[1..] && d[0] == text[0];
        ThinnedFurther(w, [], d[1..], text[1..]);
      }
    } else {
      ThinnedFurther(w, r, d, text[1..]);
    }
  }

  lemma KeptConcat(w: Watch, r1: seq<Leaf>, t1: seq<Leaf>, lost1: bool, r2: seq<Leaf>, t2: seq<Leaf>, lost2: bool)
    requires Kept(w, r1, t1, lost1) && Kept(w, r2, t2, lost2)
    ensures Kept(w, r1 + r2, t1 + t2, lost1 || lost2)
  {
    ThinnedConcat(w, r1, t1, r2, t2);
    hide Thinned;
  }

  lemma JoinKept(w: Watch, p: seq<Item>, front: seq<Leaf>, lost1: bool, op: JoinType, it: Item, text: seq<Leaf>,
                 lost2: bool)
    requires p != [] && Kept(w, OpenLeaves(w, p), front, lost1) && Kept(w, ItemLeaves(w, it), text, lost2)
    ensures Kept(w, OpenLeaves(w, WithJoin(p, op) + [it]), front + [Join(op)] + text, lost1 || lost2)
  {
    AppendLeaves(w, p, op, it);
    hide OpenLeaves, ItemLeaves;
    AllThere(w, [Join(op)]);
    KeptConcat(w, OpenLeaves(w, p), front, lost1, [Join(op)], [Join(op)], false);
    KeptConcat(w, OpenLeaves(w, p) + [Join(op)], front + [Join(op)], lost1, ItemLeaves(w, it), text, lost2);
  }

  /** The text has a lone source with a watched detail exactly when the list has a lone item with one; and a first
      item never has ON or USING. */
  lemma {:induction false} LoneDetailIsDetails(w: Watch, t: Terms)
    requires Built(t).Some?
    ensures var list := Built(t).value;
            && (LoneDetail(w, t) <==> |list| == 1 && Details(w, list[0]) != [])
            && ClauseLeaves(list[0].pOn, list[0].pUsing) == []
  {
    match t
    case First(Nested(inner, tail)) => LoneDetailIsDetails(w, inner);
    case First(_) =>
    case More(front, _, _) => LoneDetailIsDetails(w, front);
  }

  /** Unless a parenthesised list is taken over whole, a source adds one item. */
  lemma {:induction false} OneItem(w: Watch, prefix: seq<Item>, s: Source) returns (it: Item)
    requires AddSource(prefix, s).Some?
    requires prefix != [] || !(s.Nested? && s.tail.Bare())
    ensures AddSource(prefix, s) == Some(prefix + [it])
    ensures Kept(w, ItemLeaves(w, it), SourceLeaves(w, s), SourceLosesDetail(w, s, prefix == []))
    decreases s, 0
  {
    it := AddSource(prefix, s).value[|prefix|];
    if s.Nested? {
      LeavesAreConserved(w, s.inner);
      LoneDetailIsDetails(w, s.inner);
      var list := Built(s.inner).value;
      if |list| == 1 {
        assert list == [list[0]];
        MovedLeaves(w, list[0], s.tail, TextLeaves(w, s.inner), LosesDetail(w, s.inner));
      } else {
        ShiftKeepsLeaves(w, list);
        WrappedLeaves(w, Shifted(list), s.tail);
        hide ListLeaves, OpenLeaves, ItemLeaves;
        AllThere(w, TailLeaves(w, s.tail));
        KeptConcat(w, OpenLeaves(w, list), TextLeaves(w, s.inner), LosesDetail(w, s.inner),
                   TailLeaves(w, s.tail), TailLeaves(w, s.tail), false);
      }
    } else {
      PlainLeaves(w, prefix, s, it);
      AllThere(w, SourceLeaves(w, s));
    }
  }

  lemma PlainLeaves(w: Watch, prefix: seq<Item>, s: Source, it: Item)
    requires !s.Nested? && AddSource(prefix, s) == Some(prefix + [it])
    ensures ItemLeaves(w, it) == SourceLeaves(w, s)
  {
    hide ListLeaves, TextLeaves, AliasLeaves, ClauseLeaves, Built;
    assert (prefix + [it])[|prefix|] == it;
    assert it == PlainItem(s);
  }

  lemma WrappedLeaves(w: Watch, list: seq<Item>, tail: Tail)
    ensures ItemLeaves(w, TermItem(None, Some(NestedFrom(list)), tail)) == ListLeaves(w, list) + TailLeaves(w, tail)
  {
  }

  /** Moving a lone item keeps its source and loses its details, if it has any. */
  lemma MovedLeaves(w: Watch, it: Item, tail: Tail, text: seq<Leaf>, lost: bool)
    requires Kept(w, OpenLeaves(w, [it]), text, lost) && ClauseLeaves(it.pOn, it.pUsing) == []
    ensures Kept(w, ItemLeaves(w, MovedItem(it, tail)), text + TailLeaves(w, tail), lost || Details(w, it) != [])
  {
    assert OpenLeaves(w, [it]) == CoreLeaves(w, it) + Details(w, it);
    assert CoreLeaves(w, MovedItem(it, tail)) == CoreLeaves(w, it);
    assert Details(w, MovedItem(it, tail)) == AliasLeaves(w, tail.alias);
    assert ItemLeaves(w, MovedItem(it, tail)) == CoreLeaves(w, it) + TailLeaves(w, tail);
    assert forall i | 0 <= i < |Details(w, it)| :: IsDetail(w, Details(w, it)[i]);
    hide OpenLeaves, CoreLeaves, Details, ItemLeaves, TailLeaves, ClauseLeaves;
    ThinnedFurther(w, CoreLeaves(w, it), Details(w, it), text);
    AllThere(w, TailLeaves(w, tail));
    ThinnedConcat(w, CoreLeaves(w, it), text, TailLeaves(w, tail), TailLeaves(w, tail));
    hide Thinned;
  }

  /** FROM-list conservation: however deep the parentheses, the list holds what was written, in order.  Whichever
      details are looked at, something is missing exactly when some lone source that carries one stands in
      parentheses that are not simply dropped. */
  lemma {:induction false} LeavesAreConserved(w: Watch, t: Terms)
    requires Built(t).Some?
    ensures Kept(w, OpenLeaves(w, Built(t).value), TextLeaves(w, t), LosesDetail(w, t))
    decreases t
  {
    match t
    case First(s) =>
      if s.Nested? && s.tail.Bare() {
        LeavesAreConserved(w, s.inner);
        assert Built(t) == AddSource([], s) == Built(s.inner);
        assert TextLeaves(w, t) == SourceLeaves(w, s) == TextLeaves(w, s.inner) + [] == TextLeaves(w, s.inner);
        assert LosesDetail(w, t) == SourceLosesDetail(w, s, true) == LosesDetail(w, s.inner);
      } else {
        var it := OneItem(w, [], s);
        AppendLeaves(w, [], 0, it);
      }
    case More(front, op, s) =>
      LeavesAreConserved(w, front);
      var p := Built(front).value;
      var it := OneItem(w, WithJoin(p, op), s);
      JoinKept(w, p, TextLeaves(w, front), LosesDetail(w, front), op, it, SourceLeaves(w, s), SourceLosesDetail(w, s, false));
  }

  /** Sources, join operators and ON and USING clauses are never lost. */
  lemma {:induction false} NothingElseIsLost(t: Terms)
    ensures !LosesDetail(NOTHING, t) && !LoneDetail(NOTHING, t)
    decreases t
  {
    match t
    case First(s) =>
      if s.Nested? { NothingElseIsLost(s.inner); }
    case More(front, _, s) =>
      NothingElseIsLost(front);
      if s.Nested? { NothingElseIsLost(s.inner); }
  }

  /** In full: the list says exactly what the text says if and only if no detail is lost; leaving aliases, index hints
      and calls aside it always does. */
  lemma FromListConserved(t: Terms)
    requires Built(t).Some?
    ensures OpenLeaves(NOTHING, Built(t).value) == TextLeaves(NOTHING, t)
    ensures OpenLeaves(EVERYTHING, Built(t).value) == TextLeaves(EVERYTHING, t) <==> !LosesDetail(EVERYTHING, t)
  {
    NothingElseIsLost(t);
    LeavesAreConserved(NOTHING, t);
    LeavesAreConserved(EVERYTHING, t);
  }

  // --- Parentheses ---

  /** How a list is nested: single sources, and groups of two or more. */
  datatype Shape = Single | Group(list: seq<Shape>)

  function ItemShape(it: Item): Shape {
    match it.pSelect
    case Some(NestedFrom(list)) => Group(ListShape(list))
    case _ => Single
  }

  function ListShape(s: seq<Item>): (r: seq<Shape>)
    ensures |r| == |s|
    decreases s
  {
    if s == [] then [] else ListShape(s[..|s| - 1]) + [ItemShape(s[|s| - 1])]
  }

  /** Parentheses that start a list with nothing after them are dropped, and so are those around a single source or a
      single group. */
  function TextShape(t: Terms): (r: seq<Shape>)
    ensures r != []
    decreases t
  {
    match t
    case First(Nested(inner, Tail(None, None, None))) => TextShape(inner)
    case First(s) => [SourceShape(s)]
    case More(front, _, s) => TextShape(front) + [SourceShape(s)]
  }

  function SourceShape(s: Source): Shape
    decreases s
  {
    match s
    case Nested(inner, _) => if |TextShape(inner)| == 1 then TextShape(inner)[0] else Group(TextShape(inner))
    case _ => Single
  }

  lemma {:induction false} SameShape(s: seq<Item>, r: seq<Item>)
    requires |s| == |r| && forall i | 0 <= i < |s| :: SamePiecesAt(s, r, i)
    ensures ListShape(s) == ListShape(r)
  {
    if s != [] {
      var a, b := s[..|s| - 1], r[..|r| - 1];
      forall i | 0 <= i < |a|
        ensures SamePiecesAt(a, b, i)
      {
        assert SamePiecesAt(s, r, i);
      }
      assert SamePiecesAt(s, r, |s| - 1);
      SameShape(a, b);
    }
  }

  lemma ShapeOfShifted(s: seq<Item>)
    ensures ListShape(Shifted(s)) == ListShape(s)
  {
    forall i | 0 <= i < |s|
      ensures SamePiecesAt(s, Shifted(s), i)
    {
      assert ShiftedAt(s, Shifted(s), i);
    }
    SameShape(s, Shifted(s));
  }

  lemma ShapeOfAppended(s: seq<Item>, it: Item)
    ensures ListShape(s + [it]) == ListShape(s) + [ItemShape(it)]
  {
    assert (s + [it])[..|s|] == s;
  }

  lemma ShapeWithJoin(s: seq<Item>, op: JoinType)
    requires s != []
    ensures ListShape(WithJoin(s, op)) == ListShape(s)
  {
    forall i | 0 <= i < |s|
      ensures SamePiecesAt(s, WithJoin(s, op), i)
    {
    }
    SameShape(s, WithJoin(s, op));
  }

  /** The list is nested as the text is: a group is wrapped if and only if it has two or more members and is not
      simply taken over. */
  lemma {:induction false} ShapeIsKept(t: Terms)
    requires Built(t).Some?
    ensures ListShape(Built(t).value) == TextShape(t)
    decreases t
  {
    match t
    case First(s) =>
      if s.Nested? && s.tail.Bare() {
        ShapeIsKept(s.inner);
      } else {
        ShapeOfSource([], s);
      }
    case More(front, op, s) =>
      ShapeIsKept(front);
      ShapeWithJoin(Built(front).value, op);
      ShapeOfSource(WithJoin(Built(front).value, op), s);
  }

  lemma {:induction false} ShapeOfSource(prefix: seq<Item>, s: Source)
    requires AddSource(prefix, s).Some? && (prefix != [] || !(s.Nested? && s.tail.Bare()))
    ensures ListShape(AddSource(prefix, s).value) == ListShape(prefix) + [SourceShape(s)]
    decreases s, 0
  {
    if s.Nested? {
      ShapeIsKept(s.inner);
      var list := Built(s.inner).value;
      ShapeOfShifted(list);
      ShapeOfAppended(prefix, MovedItem(list[0], s.tail));
      ShapeOfAppended(prefix, TermItem(None, Some(NestedFrom(Shifted(list))), s.tail));
    } else {
      ShapeOfAppended(prefix, PlainItem(s));
    }
  }

  /** A lone table or call in bare parentheses, to the right of another source. */
  lemma MovedBehind(t: Terms)
    requires t.More? && t.front.First? && t.front.s.Table? && !t.front.s.tail.Joins()
    requires t.s.Nested? && t.s.tail.Bare() && t.s.inner.First?
    requires (t.s.inner.s.Table? || t.s.inner.s.Call?) && !t.s.inner.s.tail.Joins()
    ensures Built(t).Some? && |Built(t).value| == 2
    ensures Built(t).value[1].zAlias == None && Built(t).value[1].u1 == Hint(NoIndex)
  {
    var a, b := Built(t.front), Built(t.s.inner);
    assert a == AddSource([], t.front.s) && b == AddSource([], t.s.inner.s);
    assert a.Some? && |a.value| == 1 && b.Some? && |b.value| == 1;
    assert Built(t) == NestedList(WithJoin(a.value, t.op), b.value, t.s.tail);
  }

  const BARE := Tail(None, None, None)

  /** `x, (f(args))`: the call is lost. */
  lemma CallIsLost(x: Id, f: Id, args: Option<Id>, op: JoinType)
    ensures var t := More(First(Table(x, None, NoIndex, BARE)), op, Nested(First(Call(f, None, args, BARE)), BARE));
            && Built(t).Some? && |Built(t).value| == 2 && Built(t).value[1].u1 == Hint(NoIndex)
            && OpenLeaves(Watch(false, false, true), Built(t).value) != TextLeaves(Watch(false, false, true), t)
  {
    var t := More(First(Table(x, None, NoIndex, BARE)), op, Nested(First(Call(f, None, args, BARE)), BARE));
    assert LosesDetail(Watch(false, false, true), t);
    MovedBehind(t);
    LeavesAreConserved(Watch(false, false, true), t);
  }

  /** `x, (y AS z INDEXED BY i)`: the alias and the hint are lost, each of them. */
  lemma AliasAndHintAreLost(x: Id, y: Id, z: Id, i: Id, op: JoinType)
    ensures var t := More(First(Table(x, None, NoIndex, BARE)), op,
                          Nested(First(Table(y, None, IndexedBy(i), Tail(Some(z), None, None))), BARE));
            && Built(t).Some? && |Built(t).value| == 2 && Built(t).value[1].zAlias == None && Built(t).value[1].u1 == Hint(NoIndex)
            && OpenLeaves(Watch(true, false, false), Built(t).value) != TextLeaves(Watch(true, false, false), t)
            && OpenLeaves(Watch(false, true, false), Built(t).value) != TextLeaves(Watch(false, true, false), t)
  {
    var t := More(First(Table(x, None, NoIndex, BARE)), op,
                  Nested(First(Table(y, None, IndexedBy(i), Tail(Some(z), None, None))), BARE));
    assert LosesDetail(Watch(true, false, false), t) && LosesDetail(Watch(false, true, false), t);
    MovedBehind(t);
    LeavesAreConserved(Watch(true, false, false), t);
    LeavesAreConserved(Watch(false, true, false), t);
  }

  /** The first source of some parenthesised list, or of the whole clause, carries ON or USING. */
  predicate JoinsNothing(t: Terms)
    decreases t
  {
    match t
    case First(s) => s.tail.Joins() || (s.Nested? && JoinsNothing(s.inner))
    case More(front, _, s) => JoinsNothing(front) || (s.Nested? && JoinsNothing(s.inner))
  }

  /** The error "a JOIN clause is required before ON" is raised for exactly these texts. */
  lemma {:induction false} ErrorsExactly(t: Terms)
    ensures Built(t).None? <==> JoinsNothing(t)
    decreases t
  {
    match t
    case First(s) =>
      if s.Nested? { ErrorsExactly(s.inner); }
    case More(front, op, s) =>
      ErrorsExactly(front);
      if s.Nested? { ErrorsExactly(s.inner); }
  }

  // --- Memory owned by a list ---

  datatype Kind = DatabaseText | NameText | AliasText | IndexText | ArgList | SelectTree | OnTree | UsingList

  datatype Piece = Piece(kind: Kind, id: Id)

  /** How many copies of the piece `q` a pointer, an item or a list owns. */
  function Opt(q: Piece, kind: Kind, x: Option<Id>): nat {
    if x.Some? && q == Piece(kind, x.value) then 1 else 0
  }

  function ExtraCopies(q: Piece, u1: Extra): nat {
    match u1
    case Hint(IndexedBy(z)) => Opt(q, IndexText, Some(z))
    case Hint(_) => 0
    case TabFunc(args) => Opt(q, ArgList, args)
  }

  function SubCopies(q: Piece, sub: Option<Sub>): nat
    decreases sub
  {
    match sub
    case None => 0
    case Some(Query(id)) => Opt(q, SelectTree, Some(id))
    case Some(NestedFrom(list)) => Copies(q, list)
  }

  function ItemCopies(q: Piece, item: Item): nat
    decreases item
  {
    Opt(q, DatabaseText, item.zDatabase) + Opt(q, NameText, item.zName) + Opt(q, AliasText, item.zAlias)
    + ExtraCopies(q, item.u1) + SubCopies(q, item.pSelect) + Opt(q, OnTree, item.pOn) + Opt(q, UsingList, item.pUsing)
  }

  function Copies(q: Piece, s: seq<Item>): nat
    decreases s
  {
    if s == [] then 0 else ItemCopies(q, s[0]) + Copies(q, s[1..])
  }

  lemma {:induction false} CopiesConcat(q: Piece, a: seq<Item>, b: seq<Item>)
    ensures Copies(q, a + b) == Copies(q, a) + Copies(q, b)
  {
    if a == [] {
      assert a + b == b;
    } else {
      CopiesConcat(q, a[1..], b);
      assert (a + b)[1..] == a[1..] + b;
    }
  }

  /** Join operators own no memory. */
  lemma {:induction false} SameCopies(q: Piece, a: seq<Item>, b: seq<Item>)
    requires |a| == |b| && forall i | 0 <= i < |a| :: SamePiecesAt(a, b, i)
    ensures Copies(q, a) == Copies(q, b)
  {
    if a != [] {
      assert SamePiecesAt(a, b, 0);
      forall i | 0 <= i < |a| - 1
        ensures SamePiecesAt(a[1..], b[1..], i)
      {
        assert SamePiecesAt(a, b, i + 1);
      }
      SameCopies(q, a[1..], b[1..]);
    }
  }

  predicate SamePiecesAt(a: seq<Item>, b: seq<Item>, i: nat)
    requires i < |a| == |b|
  {
    b[i] == a[i].(jointype := b[i].jointype)
  }

  /** The allocator, as seen by one piece of memory, which may be any: how many copies have been allocated and
      not yet freed. */
  class Memory {
    const q: Piece
    var live: nat

    constructor (q: Piece)
      ensures this.q == q && live == 0
    {
      this.q := q;
      live := 0;
    }

    method Own(kind: Kind, x: Option<Id>)
      modifies this
      ensures live == old(live) + Opt(q, kind, x)
    {
      if x.Some? && q == Piece(kind, x.value) {
        live := live + 1;
      }
    }

    /** Only live memory may be freed. */
    method Release(kind: Kind, x: Option<Id>)
      requires Opt(q, kind, x) <= live
      modifies this
      ensures live == old(live) - Opt(q, kind, x)
    {
      if x.Some? && q == Piece(kind, x.value) {
        live := live - 1;
      }
    }

    /** Free one item's memory, subqueries and nested lists included. */
    method ItemDelete(item: Item)
      requires ItemCopies(q, item) <= live
      modifies this
      ensures live == old(live) - ItemCopies(q, item)
      decreases item, 1
    {
      Release(DatabaseText, item.zDatabase);
      Release(NameText, item.zName);
      Release(AliasText, item.zAlias);
      match item.u1 {
        case Hint(IndexedBy(z)) => Release(IndexText, Some(z));
        case Hint(_) =>
        case TabFunc(args) => Release(ArgList, args);
      }
      if item.pSelect.Some? {
        SelectDelete(item.pSelect.value);
      }
      Release(OnTree, item.pOn);
      Release(UsingList, item.pUsing);
    }

    method SelectDelete(sub: Sub)
      requires SubCopies(q, Some(sub)) <= live
      modifies this
      ensures live == old(live) - SubCopies(q, Some(sub))
      decreases sub, 0
    {
      match sub {
        case Query(id) => Release(SelectTree, Some(id));
        case NestedFrom(list) => SrcListDelete(list);
      }
    }

    method SrcListDelete(list: seq<Item>)
      requires Copies(q, list) <= live
      modifies this
      ensures live == old(live) - Copies(q, list)
      decreases list
    {
      for i := 0 to |list|
        invariant Copies(q, list[i..]) <= live
        invariant live - Copies(q, list[i..]) == old(live) - Copies(q, list)
      {
        assert list[i] in list && list[i..][1..] == list[i + 1..];
        ItemDelete(list[i]);
      }
    }
  }

  // --- The actions on lists in the heap ---

  lemma ShiftedIsUnique(s: seq<Item>, r: seq<Item>)
    requires |r| == |s| && forall i | 0 <= i < |s| :: ShiftedAt(s, r, i)
    ensures r == Shifted(s)
  {
    forall i | 0 <= i < |s|
      ensures r[i] == Shifted(s)[i]
    {
      assert ShiftedAt(s, r, i) && ShiftedAt(s, Shifted(s), i);
    }
  }

  class SrcList {
    var a: seq<Item>

    constructor ()
      ensures a == []
    {
      a := [];
    }

    /** Every operator moves from the left operand to the right one, from the end backwards. */
    method ShiftJoinType()
      requires a != []
      modifies this
      ensures a == Shifted(old(a))
    {
      ghost var s := a;
      var i := |a| - 1;
      while i > 0
        invariant 0 <= i < |a| == |s|
        invariant forall k | 0 <= k <= i :: a[k] == s[k]
        invariant forall k | i < k < |a| :: ShiftedAt(s, a, k)
      {
        ghost var before := a;
        a := a[i := a[i].(jointype := a[i - 1].jointype)];
        forall k | i <= k < |a|
          ensures ShiftedAt(s, a, k)
        {
          assert k > i ==> ShiftedAt(s, before, k);
        }
        i := i - 1;
      }
      ghost var before := a;
      a := a[0 := a[0].(jointype := 0)];
      forall k | 0 <= k < |a|
        ensures ShiftedAt(s, a, k)
      {
        assert k > 0 ==> ShiftedAt(s, before, k);
      }
      ShiftedIsUnique(s, a);
    }
  }

  ghost function Contents(p: SrcList?): seq<Item>
    reads p
  {
    if p == null then [] else p.a
  }

  ghost function Owned(q: Piece, p: SrcList?): nat
    reads p
  {
    Copies(q, Contents(p))
  }

  /** `p` is the list `list`, or null after an error. */
  ghost predicate Holds(p: SrcList?, list: Option<seq<Item>>)
    reads p
  {
    match list
    case None => p == null
    case Some(s) => p != null && p.a == s
  }

  function TreeCopies(q: Piece, sub: Option<Sub>, tail: Tail): nat {
    SubCopies(q, sub) + Opt(q, OnTree, tail.on) + Opt(q, UsingList, tail.using)
  }

  /** Append a term to the list `p`, creating the list if there is none.  The ON, USING and subquery trees are
      handed over: into the new item, or to the allocator when nothing stands to the left of ON or USING. */
  method AppendFromTerm(mem: Memory, p: SrcList?, names: Option<Names>, sub: Option<Sub>, tail: Tail)
    returns (r: SrcList?)
    requires p != null ==> p.a != []
    requires Owned(mem.q, p) + TreeCopies(mem.q, sub, tail) <= mem.live
    modifies mem, p
    ensures Holds(r, Append(old(Contents(p)), TermItem(names, sub, tail)))
    ensures r == null || r == p || fresh(r)
    ensures mem.live - Owned(mem.q, r)
         == old(mem.live) - old(Owned(mem.q, p)) - TreeCopies(mem.q, sub, tail)
  {
    if p == null && tail.Joins() {
      mem.Release(OnTree, tail.on);
      mem.Release(UsingList, tail.using);
      if sub.Some? {
        mem.SelectDelete(sub.value);
      }
      return null;
    }
    r := p;
    if r == null {
      r := new SrcList();
    }
    var item := TermItem(names, sub, tail);
    mem.Own(DatabaseText, item.zDatabase);
    mem.Own(NameText, item.zName);
    mem.Own(AliasText, item.zAlias);
    CopiesConcat(mem.q, r.a, [item]);
    assert [item][1..] == [];
    r.a := r.a + [item];
  }

  function WithExtra(s: seq<Item>, u1: Extra): seq<Item>
    requires s != []
  {
    s[|s| - 1 := s[|s| - 1].(u1 := u1)]
  }

  lemma ExtraIsCounted(q: Piece, s: seq<Item>, u1: Extra)
    requires s != [] && s[|s| - 1].u1 == Hint(NoIndex)
    ensures Copies(q, WithExtra(s, u1)) == Copies(q, s) + ExtraCopies(q, u1)
  {
    var front, last := s[..|s| - 1], s[|s| - 1];
    assert s == front + [last] && WithExtra(s, u1) == front + [last.(u1 := u1)];
    CopiesConcat(q, front, [last]);
    CopiesConcat(q, front, [last.(u1 := u1)]);
    assert [last][1..] == [] && [last.(u1 := u1)][1..] == [];
  }

  /** Attach an index hint to the last term. */
  method SrcListIndexedBy(mem: Memory, p: SrcList?, index: Index)
    requires p != null ==> p.a != [] && p.a[|p.a| - 1].u1 == Hint(NoIndex)
    modifies mem, p
    ensures p != null ==> p.a == WithExtra(old(p.a), Hint(index))
    ensures mem.live - Owned(mem.q, p) == old(mem.live) - old(Owned(mem.q, p))
  {
    if p != null {
      ExtraIsCounted(mem.q, p.a, Hint(index));
      hide Copies;
      if index.IndexedBy? {
        mem.Own(IndexText, Some(index.z));
      }
      p.a := p.a[|p.a| - 1 := p.a[|p.a| - 1].(u1 := Hint(index))];
    }
  }

  /** Attach the arguments of a table function to the last term, or free them after an error. */
  method SrcListFuncArgs(mem: Memory, p: SrcList?, args: Option<Id>)
    requires p != null ==> p.a != [] && p.a[|p.a| - 1].u1 == Hint(NoIndex)
    requires Owned(mem.q, p) + Opt(mem.q, ArgList, args) <= mem.live
    modifies mem, p
    ensures p != null ==> p.a == WithExtra(old(p.a), TabFunc(args))
    ensures mem.live - Owned(mem.q, p) == old(mem.live) - old(Owned(mem.q, p)) - Opt(mem.q, ArgList, args)
  {
    if p != null {
      ExtraIsCounted(mem.q, p.a, TabFunc(args));
      hide Copies;
      p.a := p.a[|p.a| - 1 := p.a[|p.a| - 1].(u1 := TabFunc(args))];
    } else {
      mem.Release(ArgList, args);
    }
  }

  /** A parenthesised list after the prefix `p`.  A lone item gives up its names and its subquery to the new
      term, and is emptied before its old list is deleted: nothing is freed twice. */
  method ReduceNested(mem: Memory, p: SrcList?, inner: SrcList, tail: Tail) returns (r: SrcList?)
    requires p != inner && inner.a != [] && (p != null ==> p.a != [])
    requires Owned(mem.q, p) + Owned(mem.q, inner) + TreeCopies(mem.q, None, tail) <= mem.live
    modifies mem, p, inner
    ensures Holds(r, NestedList(old(Contents(p)), old(inner.a), tail))
    ensures r == null || r == p || r == inner || fresh(r)
    ensures mem.live - Owned(mem.q, r)
         == old(mem.live) - old(Owned(mem.q, p)) - old(Owned(mem.q, inner)) - TreeCopies(mem.q, None, tail)
  {
    if p == null && tail.alias.None? && tail.on.None? && tail.using.None? {
      r := inner;
    } else if |inner.a| == 1 {
      r := AppendFromTerm(mem, p, None, None, tail);
      if r != null {
        MoveOut(mem.q, r, inner);
      }
      mem.SrcListDelete(inner.a);
    } else {
      ghost var list := inner.a;
      inner.ShiftJoinType();
      SameCopies(mem.q, list, inner.a);
      r := AppendFromTerm(mem, p, None, Some(NestedFrom(inner.a)), tail);
    }
  }

  /** Move names and subquery from the lone item of `inner` to the last term of `r`. */
  method MoveOut(ghost q: Piece, r: SrcList, inner: SrcList)
    requires r != inner && r.a != [] && |inner.a| == 1
    requires var it := r.a[|r.a| - 1]; it.zName == it.zDatabase == None && it.pSelect == None
    modifies r, inner
    ensures r.a == var s := old(r.a); var it := old(inner.a)[0];
      s[|s| - 1 := s[|s| - 1].(zDatabase := it.zDatabase, zName := it.zName, pSelect := it.pSelect)]
    ensures inner.a == [old(inner.a)[0].(zDatabase := None, zName := None, pSelect := None)]
    ensures Copies(q, r.a) + Copies(q, inner.a) == old(Copies(q, r.a)) + old(Copies(q, inner.a))
  {
    var n := |r.a| - 1;
    ghost var front, was, it := r.a[..n], r.a[n], inner.a[0];
    assert r.a == front + [was] && inner.a == [it];
    CopiesConcat(q, front, [was]);
    r.a := r.a[n := r.a[n].(zName := inner.a[0].zName)];
    r.a := r.a[n := r.a[n].(zDatabase := inner.a[0].zDatabase)];
    r.a := r.a[n := r.a[n].(pSelect := inner.a[0].pSelect)];
    inner.a := inner.a[0 := inner.a[0].(zName := None, zDatabase := None)];
    inner.a := inner.a[0 := inner.a[0].(pSelect := None)];
    assert r.a == front + [r.a[n]] && inner.a == [inner.a[0]];
    CopiesConcat(q, front, [r.a[n]]);
    assert [was][1..] == [] && [r.a[n]][1..] == [] && [it][1..] == [] && [inner.a[0]][1..] == [];
  }

  /** The trees the parser has made for one source, before its reduce action. */
  method OwnTail(mem: Memory, tail: Tail)
    modifies mem
    ensures mem.live == old(mem.live) + Opt(mem.q, OnTree, tail.on) + Opt(mem.q, UsingList, tail.using)
  {
    mem.Own(OnTree, tail.on);
    mem.Own(UsingList, tail.using);
  }

  /** Parse one more source onto the prefix `p`. */
  method ParseSource(mem: Memory, p: SrcList?, s: Source) returns (r: SrcList?)
    requires (p != null ==> p.a != []) && Owned(mem.q, p) <= mem.live
    modifies mem, p
    ensures Holds(r, AddSource(old(Contents(p)), s))
    ensures r == null || r == p || fresh(r)
    ensures mem.live - Owned(mem.q, r) == old(mem.live) - old(Owned(mem.q, p))
    decreases s
  {
    match s {
      case Table(nm, dbnm, index, tail) =>
        OwnTail(mem, tail);
        r := AppendFromTerm(mem, p, Some(Names(nm, dbnm)), None, tail);
        SrcListIndexedBy(mem, r, index);
      case Call(nm, dbnm, args, tail) =>
        mem.Own(ArgList, args);
        OwnTail(mem, tail);
        r := AppendFromTerm(mem, p, Some(Names(nm, dbnm)), None, tail);
        SrcListFuncArgs(mem, r, args);
      case Subquery(id, tail) =>
        mem.Own(SelectTree, Some(id));
        OwnTail(mem, tail);
        r := AppendFromTerm(mem, p, None, Some(Query(id)), tail);
      case Nested(inner, tail) =>
        var list := ParseTerms(mem, inner);
        if list == null {
          // The parse stops here; the prefix is released with the rest of the parser's stack.
          if p != null { mem.SrcListDelete(p.a); }
          return null;
        }
        OwnTail(mem, tail);
        r := ReduceNested(mem, p, list, tail);
    }
  }

  /** Parse a list of sources, left to right. */
  method ParseTerms(mem: Memory, t: Terms) returns (r: SrcList?)
    modifies mem
    ensures Holds(r, Built(t)) && (r != null ==> fresh(r))
    ensures mem.live == old(mem.live) + Owned(mem.q, r)
    decreases t
  {
    match t {
      case First(s) =>
        r := ParseSource(mem, null, s);
      case More(front, op, s) =>
        var p := ParseTerms(mem, front);
        if p == null { return null; }
        ghost var list := p.a;
        p.a := p.a[|p.a| - 1 := p.a[|p.a| - 1].(jointype := op)];
        SameCopies(mem.q, list, p.a);
        r := ParseSource(mem, p, s);
    }
  }

  /** A whole FROM clause: null exactly when some ON or USING joins nothing, and otherwise a list with the leaf
      sources and join operators of the text in order, nested as in the text.  Whatever was allocated on the way is
      owned by that list or has been freed, each piece once. */
  method ParseFrom(mem: Memory, t: Terms) returns (r: SrcList?)
    modifies mem
    ensures r == null <==> JoinsNothing(t)
    ensures r != null ==> fresh(r) && r.a != [] && r.a[0].jointype == 0
    ensures r != null ==> ListShape(r.a) == TextShape(t)
    ensures r != null ==> forall w :: Kept(w, ListLeaves(w, r.a), TextLeaves(w, t), LosesDetail(w, t))
    ensures mem.live == old(mem.live) + Owned(mem.q, r)
  {
    ErrorsExactly(t);
    r := ParseTerms(mem, t);
    if r != null {
      ghost var list := r.a;
      forall w
        ensures Kept(w, ListLeaves(w, Shifted(list)), TextLeaves(w, t), LosesDetail(w, t))
      {
        LeavesAreConserved(w, t);
        ShiftKeepsLeaves(w, list);
      }
      ShapeIsKept(t);
      ShapeOfShifted(list);
      r.ShiftJoinType();
      SameCopies(mem.q, list, r.a);
    }
  }
}
