/** Source-text spans: where they start and end, and how the spans of an expression's parts lie in it. */
module ExprSpans {
  import opened Options
  import opened ExprTrees

  // --- Spans ---

  function OptToks(dot: seq<Tok>, t: Option<Named>): seq<Tok> {
    match t
    case None => []
    case Some(d) => dot + [d.tok]
  }

  /** All tokens of an expression, in order. */
  function Toks(s: Surface): seq<Tok>
    decreases s
  {
    match s
    case Literal(tok, _) => [tok]
    case Paren(lp, e, rp) => [lp] + Toks(e) + [rp]
    case Variable(tok, _, _) => [tok]
    case Dotted(nm, _, dot, mid, last, _) =>
      [nm, dot] + (match mid case None => [] case Some(m) => [m.tok, m.dot]) + [last]
    case Bracket(first, head, items, last, _) => [first] + head + ItemToks(items) + [last]
    case Cast(t, lp, e, ts, _, rp) => [t, lp] + Toks(e) + ts + [rp]
    case Collate(e, t, nm, _) => Toks(e) + [t, nm]
    case InSelect(e, ts, _, lp, head, items, rp, _) => Toks(e) + ts + [lp] + head + ItemToks(items) + [rp]
    case Infix(l, t, _, r) => Toks(l) + [t] + Toks(r)
    case Is(l, ts, _, r) => Toks(l) + ts + Toks(r)
    case Postfix(e, _, ts, last) => Toks(e) + ts + [last]
    case Prefix(t, _, e) => [t] + Toks(e)
    case Like(l, ts, _, _, r) => Toks(l) + ts + Toks(r)
    case LikeEscape(l, ts, _, _, r, t, esc) => Toks(l) + ts + Toks(r) + [t] + Toks(esc)
    case Betw(e, ts, _, lo, t, hi) => Toks(e) + ts + Toks(lo) + [t] + Toks(hi)
    case InList(e, ts, _, lp, items, rp) => Toks(e) + ts + [lp] + ItemToks(items) + [rp]
    case InNamed(e, ts, _, _, nm, dbnm, dot, args) =>
      Toks(e) + ts + [nm] + OptToks(dot, dbnm)
      + (match args case None => [] case Some(a) => [a.lp] + ItemToks(a.items) + [a.rp])
    case CaseOf(t, op, whens, els, end) =>
      [t] + (match op case None => [] case Some(e) => Toks(e)) + WhenToks(whens)
      + (match els case None => [] case Some(x) => [x.elseTok] + Toks(x.e)) + [end]
  }

  function ItemToks(items: seq<Item>): seq<Tok>
    decreases items
  {
    if items == [] then [] else
      assert items[0].e < items[0];
      Toks(items[0].e) + items[0].seps + ItemToks(items[1..])
  }

  function WhenToks(whens: seq<When>): seq<Tok>
    decreases whens
  {
    if whens == [] then [] else
      var w := whens[0];
      assert w.cond < w && w.res < w;
      [w.whenTok] + Toks(w.cond) + [w.thenTok] + Toks(w.res) + WhenToks(whens[1..])
  }

  /** Tokens have text and follow one another. */
  predicate InOrder(ts: seq<Tok>) {
    && (forall i | 0 <= i < |ts| :: ts[i].n > 0)
    && (forall i, j | 0 <= i < j < |ts| :: Apart(ts, i, j))
  }

  predicate Apart(ts: seq<Tok>, i: nat, j: nat)
    requires i < j < |ts|
  {
    ts[i].End() <= ts[j].z
  }

  function Last(ts: seq<Tok>): Tok
    requires ts != []
  {
    ts[|ts| - 1]
  }

  /** Where the parser says an expression starts. */
  function Start(s: Surface): nat {
    match s
    case Literal(t, _) => t.z
    case Paren(lp, _, _) => lp.z
    case Variable(t, _, _) => t.z
    case Dotted(t, _, _, _, _, _) => t.z
    case Bracket(t, _, _, _, _) => t.z
    case Cast(t, _, _, _, _, _) => t.z
    case Collate(e, _, _, _) => Start(e)
    case InSelect(e, _, _, _, _, _, _, _) => Start(e)
    case Infix(l, _, _, _) => Start(l)
    case Is(l, _, _, _) => Start(l)
    case Postfix(e, _, _, _) => Start(e)
    case Prefix(t, _, _) => t.z
    case Like(l, _, _, _, _) => Start(l)
    case LikeEscape(l, _, _, _, _, _, _) => Start(l)
    case Betw(e, _, _, _, _, _) => Start(e)
    case InList(e, _, _, _, _, _) => Start(e)
    case InNamed(e, _, _, _, _, _, _, _) => Start(e)
    case CaseOf(t, _, _, _, _) => t.z
  }

  /** Where the parser says an expression ends. */
  function End(s: Surface): nat {
    match s
    case Literal(t, _) => t.End()
    case Paren(_, _, rp) => rp.End()
    case Variable(t, _, _) => t.End()
    case Dotted(_, _, _, _, last, _) => last.End()
    case Bracket(_, _, _, last, _) => last.End()
    case Cast(_, _, _, _, _, rp) => rp.End()
    case Collate(_, _, nm, _) => nm.End()
    case InSelect(_, _, _, _, _, _, rp, _) => rp.End()
    case Infix(_, _, _, r) => End(r)
    case Is(_, _, _, r) => End(r)
    case Postfix(_, _, _, last) => last.End()
    case Prefix(_, _, e) => End(e)
    case Like(_, _, _, _, r) => End(r)
    case LikeEscape(_, _, _, _, _, _, esc) => End(esc)
    case Betw(_, _, _, _, _, hi) => End(hi)
    case InList(_, _, _, _, _, rp) => rp.End()
    case InNamed(_, _, _, _, nm, dbnm, _, _) => if dbnm.Some? then dbnm.value.tok.End() else nm.End()
    case CaseOf(_, _, _, _, end) => end.End()
  }

  /** The expression's last operand is the table form of IN with an argument list. */
  predicate EndsInTableCall(s: Surface) {
    match s
    case Infix(_, _, _, r) => EndsInTableCall(r)
    case Is(_, _, _, r) => EndsInTableCall(r)
    case Prefix(_, _, e) => EndsInTableCall(e)
    case Like(_, _, _, _, r) => EndsInTableCall(r)
    case LikeEscape(_, _, _, _, _, _, esc) => EndsInTableCall(esc)
    case Betw(_, _, _, _, _, hi) => EndsInTableCall(hi)
    case InNamed(_, _, _, _, _, _, _, args) => args.Some?
    case _ => false
  }

  /** Every span starts at the expression's first token. */
  lemma {:induction false} StartIsFirst(s: Surface)
    ensures Toks(s) != [] && Start(s) == Toks(s)[0].z
  {
    match s
    case Infix(l, _, _, _) => StartIsFirst(l);
    case Is(l, _, _, _) => StartIsFirst(l);
    case Postfix(e, _, _, _) => StartIsFirst(e);
    case Like(l, _, _, _, _) => StartIsFirst(l);
    case LikeEscape(l, _, _, _, _, _, _) => StartIsFirst(l);
    case Betw(e, _, _, _, _, _) => StartIsFirst(e);
    case InList(e, _, _, _, _, _) => StartIsFirst(e);
    case InNamed(e, _, _, _, _, _, _, _) => StartIsFirst(e);
    case Collate(e, _, _, _) => StartIsFirst(e);
    case InSelect(e, _, _, _, _, _, _, _) => StartIsFirst(e);
    case _ =>
  }

  lemma InOrderSuffix(a: seq<Tok>, b: seq<Tok>)
    requires InOrder(a + b)
    ensures InOrder(b)
    ensures b != [] ==> Last(a + b) == Last(b)
    ensures a != [] && b != [] ==> Last(a).End() < Last(a + b).End() && a[0].z < b[0].z
  {
    forall i, j | 0 <= i < j < |b|
      ensures Apart(b, i, j)
    {
      assert Apart(a + b, |a| + i, |a| + j);
    }
    forall i | 0 <= i < |b|
      ensures b[i].n > 0
    {
      assert (a + b)[|a| + i] == b[i];
    }
    if a != [] && b != [] {
      assert Apart(a + b, |a| - 1, |a + b| - 1) && Apart(a + b, 0, |a|);
    }
  }

  lemma InOrderPrefix(a: seq<Tok>, b: seq<Tok>)
    requires InOrder(a + b)
    ensures InOrder(a)
  {
    assert forall i | 0 <= i < |a| :: (a + b)[i] == a[i];
    forall i, j | 0 <= i < j < |a|
      ensures Apart(a, i, j)
    {
      assert Apart(a + b, i, j);
    }
  }

  /** No token of a middle part ends after the last token of the whole. */
  lemma LastIsLatest(a: seq<Tok>, m: seq<Tok>, b: seq<Tok>)
    requires InOrder(a + m + b) && m != []
    ensures InOrder(m) && (a + m + b)[0].z <= m[0].z && Last(m).End() <= Last(a + m + b).End()
    ensures b != [] ==> Last(m).End() <= b[0].z
  {
    assert a + m + b == a + (m + b);
    InOrderSuffix(a, m + b);
    InOrderPrefix(m, b);
    if b != [] {
      assert Apart(m + b, |m| - 1, |m|);
      InOrderSuffix(m, b);
    } else {
      assert m + b == m;
    }
  }

  /** Every span ends no later than the expression's last token, and exactly there unless the last operand is a
      table called with arguments, where it stops at the table's name. */
  lemma {:induction false} EndIsLast(s: Surface)
    requires InOrder(Toks(s))
    ensures Toks(s) != [] && End(s) <= Last(Toks(s)).End()
    ensures End(s) == Last(Toks(s)).End() <==> !EndsInTableCall(s)
    decreases s, 0
  {
    hide ItemToks, WhenToks, OptToks, InOrder;
    StartIsFirst(s);
    match s
    case Infix(l, t, _, r) => EndsWith(Toks(l) + [t], r);
    case Is(l, ts, _, r) => EndsWith(Toks(l) + ts, r);
    case Prefix(t, _, e) => EndsWith([t], e);
    case Like(l, ts, _, _, r) => EndsWith(Toks(l) + ts, r);
    case LikeEscape(l, ts, _, _, r, t, esc) => EndsWith(Toks(l) + ts + Toks(r) + [t], esc);
    case Betw(e, ts, _, lo, t, hi) => EndsWith(Toks(e) + ts + Toks(lo) + [t], hi);
    case InNamed(_, _, _, _, _, _, _, _) => NameIsLast(s);
    case _ =>
  }

  lemma NameIsLast(s: Surface)
    requires s.InNamed? && InOrder(Toks(s))
    ensures Toks(s) != [] && End(s) <= Last(Toks(s)).End()
    ensures End(s) == Last(Toks(s)).End() <==> s.args.None?
  {
    var head, args := UpToName(s), s.args;
    if args.Some? {
      var tail := [args.value.lp] + ItemToks(args.value.items) + [args.value.rp];
      assert Toks(s) == head + tail;
      InOrderSuffix(head, tail);
    } else {
      assert Toks(s) == head;
    }
  }

  lemma {:induction false} EndsWith(a: seq<Tok>, e: Surface)
    requires InOrder(a + Toks(e))
    ensures Toks(e) != [] && End(e) <= Last(a + Toks(e)).End()
    ensures End(e) == Last(a + Toks(e)).End() <==> !EndsInTableCall(e)
    decreases e, 1
  {
    StartIsFirst(e);
    InOrderSuffix(a, Toks(e));
    EndIsLast(e);
  }

  /** No span is empty or backwards. */
  lemma {:induction false} StartBeforeEnd(s: Surface)
    requires InOrder(Toks(s))
    ensures Start(s) < End(s)
    decreases s, 0
  {
    StartIsFirst(s);
    match s
    case Infix(l, t, _, r) => StartsBefore(Toks(l) + [t], r);
    case Is(l, ts, _, r) => StartIsFirst(l); StartsBefore(Toks(l) + ts, r);
    case Prefix(t, _, e) => StartsBefore([t], e);
    case Like(l, ts, _, _, r) => StartIsFirst(l); StartsBefore(Toks(l) + ts, r);
    case LikeEscape(l, ts, _, _, r, t, esc) => StartsBefore(Toks(l) + ts + Toks(r) + [t], esc);
    case Betw(e, ts, _, lo, t, hi) => StartsBefore(Toks(e) + ts + Toks(lo) + [t], hi);
    case InNamed(e, ts, _, _, nm, dbnm, dot, args) => NameEnds(s);
    case _ => EndIsLast(s); FirstBeforeLast(Toks(s));
  }

  lemma {:induction false} StartsBefore(a: seq<Tok>, e: Surface)
    requires InOrder(a + Toks(e)) && a != []
    ensures a[0].z < End(e) && (a + Toks(e))[0] == a[0]
    decreases e, 1
  {
    StartIsFirst(e);
    InOrderSuffix(a, Toks(e));
    StartBeforeEnd(e);
  }

  lemma FirstBeforeLast(ts: seq<Tok>)
    requires InOrder(ts) && ts != []
    ensures ts[0].z < Last(ts).End()
  {
    if |ts| > 1 {
      assert Apart(ts, 0, |ts| - 1);
    }
  }

  /** The part of a table form of IN that its span covers. */
  function UpToName(s: Surface): (ts: seq<Tok>)
    requires s.InNamed?
    ensures ts != [] && Last(ts).End() == End(s)
  {
    Toks(s.e) + s.inToks + [s.nm] + OptToks(s.dot, s.dbnm)
  }

  lemma NameEnds(s: Surface)
    requires s.InNamed? && InOrder(Toks(s))
    ensures Start(s) < End(s)
  {
    StartIsFirst(s);
    StartIsFirst(s.e);
    var tail := match s.args case None => [] case Some(a) => [a.lp] + ItemToks(a.items) + [a.rp];
    assert Toks(s) == UpToName(s) + tail;
    InOrderPrefix(UpToName(s), tail);
    FirstBeforeLast(UpToName(s));
  }

  /** Wherever an expression's tokens lie inside another's, and not past its end, its span lies inside too. */
  lemma SpansNest(s: Surface, a: seq<Tok>, c: Surface, b: seq<Tok>)
    requires InOrder(Toks(s)) && Toks(s) == a + Toks(c) + b
    ensures Toks(c) != [] && InOrder(Toks(c)) && Start(s) <= Start(c) < End(c)
    ensures Last(Toks(c)).End() <= End(s) ==> End(c) <= End(s)
    ensures !EndsInTableCall(s) ==> Last(Toks(c)).End() <= End(s)
  {
    hide Toks, Start, End, EndsInTableCall;
    StartIsFirst(s);
    StartIsFirst(c);
    EndIsLast(s);
    LastIsLatest(a, Toks(c), b);
    EndIsLast(c);
    StartBeforeEnd(c);
  }

  /** Expressions that follow one another in the text have disjoint spans, whatever they end in. */
  lemma SpansDisjoint(ts: seq<Tok>, a: seq<Tok>, c: Surface, m: seq<Tok>, d: Surface, b: seq<Tok>)
    requires InOrder(ts) && ts == a + Toks(c) + m + Toks(d) + b
    ensures End(c) <= Start(d)
  {
    hide Toks, Start, End, EndsInTableCall;
    StartIsFirst(c);
    StartIsFirst(d);
    var rest := m + Toks(d) + b;
    assert ts == a + Toks(c) + rest;
    LastIsLatest(a, Toks(c), rest);
    EndIsLast(c);
    assert ts == (a + Toks(c)) + rest;
    InOrderSuffix(a + Toks(c), rest);
    LastIsLatest(m, Toks(d), b);
  }

  /** Why the table form of IN is an exception: an argument of the call lies past the end of the whole span. */
  lemma ArgumentsLieOutside(s: Surface, a: seq<Tok>, c: Surface, b: seq<Tok>)
    requires s.InNamed? && s.args.Some? && InOrder(Toks(s))
    requires ItemToks(s.args.value.items) == a + Toks(c) + b
    ensures End(s) < Start(c)
  {
    var lp, rp := s.args.value.lp, s.args.value.rp;
    StartIsFirst(c);
    var tail := [lp] + (a + Toks(c) + b) + [rp];
    assert Toks(s) == UpToName(s) + tail;
    var k, j := |UpToName(s)|, |UpToName(s)| + 1 + |a|;
    assert Toks(s)[k - 1] == Last(UpToName(s)) && Toks(s)[k] == lp && Toks(s)[j] == Toks(c)[0];
    assert Apart(Toks(s), k - 1, k) && Apart(Toks(s), k, j);
  }

  // --- Parts of an expression ---

  function Exprs(items: seq<Item>): (es: seq<Surface>)
    ensures |es| == |items|
  {
    seq(|items|, i requires 0 <= i < |items| => items[i].e)
  }

  function WhenExprs(whens: seq<When>): (es: seq<Surface>)
    ensures |es| == 2 * |whens|
  {
    seq(2 * |whens|, i requires 0 <= i < 2 * |whens| => if i % 2 == 0 then whens[i / 2].cond else whens[i / 2].res)
  }

  function ArgExprs(s: Surface): seq<Surface>
    requires s.InNamed?
  {
    match s.args case None => [] case Some(a) => Exprs(a.items)
  }

  /** The expressions an expression is made of, left to right. */
  function Parts(s: Surface): seq<Surface> {
    match s
    case Literal(_, _) => []
    case Variable(_, _, _) => []
    case Dotted(_, _, _, _, _, _) => []
    case Paren(_, e, _) => [e]
    case Bracket(_, _, items, _, _) => Exprs(items)
    case Cast(_, _, e, _, _, _) => [e]
    case Collate(e, _, _, _) => [e]
    case Infix(l, _, _, r) => [l, r]
    case Is(l, _, _, r) => [l, r]
    case Postfix(e, _, _, _) => [e]
    case Prefix(_, _, e) => [e]
    case Like(l, _, _, _, r) => [l, r]
    case LikeEscape(l, _, _, _, r, _, esc) => [l, r, esc]
    case Betw(e, _, _, lo, _, hi) => [e, lo, hi]
    case InList(e, _, _, _, items, _) => [e] + Exprs(items)
    case InNamed(e, _, _, _, _, _, _, _) => [e] + ArgExprs(s)
    case InSelect(e, _, _, _, _, items, _, _) => [e] + Exprs(items)
    case CaseOf(_, op, whens, els, _) =>
      OperandExprs(op) + WhenExprs(whens) + ElseExprs(els)
  }

  function OperandExprs(op: Option<Surface>): (es: seq<Surface>)
    ensures |es| == if op.Some? then 1 else 0
  {
    match op case None => [] case Some(e) => [e]
  }

  function ElseExprs(els: Option<Else>): (es: seq<Surface>)
    ensures |es| == if els.Some? then 1 else 0
  {
    match els case None => [] case Some(x) => [x.e]
  }

  /** `c` lies `n` levels inside `s`. */
  ghost predicate Inside(c: Surface, s: Surface, n: nat)
    decreases n
  {
    if n == 0 then c == s else exists d :: d in Parts(s) && Inside(c, d, n - 1)
  }

  lemma {:induction false} ItemPart(items: seq<Item>, i: nat) returns (a: seq<Tok>, b: seq<Tok>)
    requires i < |items|
    ensures ItemToks(items) == a + Toks(items[i].e) + b
  {
    hide Toks;
    if i == 0 {
      a, b := [], items[0].seps + ItemToks(items[1..]);
    } else {
      var a', b' := ItemPart(items[1..], i - 1);
      a, b := Toks(items[0].e) + items[0].seps + a', b';
    }
  }

  lemma {:induction false} WhenPart(whens: seq<When>, i: nat) returns (a: seq<Tok>, b: seq<Tok>)
    requires i < 2 * |whens|
    ensures WhenToks(whens) == a + Toks(WhenExprs(whens)[i]) + b
  {
    hide Toks;
    var w := whens[0];
    if i == 0 {
      a, b := [w.whenTok], [w.thenTok] + Toks(w.res) + WhenToks(whens[1..]);
    } else if i == 1 {
      a, b := [w.whenTok] + Toks(w.cond) + [w.thenTok], WhenToks(whens[1..]);
    } else {
      var a', b' := WhenPart(whens[1..], i - 2);
      assert WhenExprs(whens)[i] == WhenExprs(whens[1..])[i - 2];
      a, b := [w.whenTok] + Toks(w.cond) + [w.thenTok] + Toks(w.res) + a', b';
    }
  }

  lemma Assoc(x: seq<Tok>, y: seq<Tok>, z: seq<Tok>)
    ensures (x + y) + z == x + (y + z)
  {
  }

  lemma Widen(pre: seq<Tok>, a: seq<Tok>, t: seq<Tok>, b: seq<Tok>, post: seq<Tok>)
    ensures pre + (a + t + b) + post == (pre + a) + t + (b + post)
  {
  }

  lemma Foremost(t: seq<Tok>, x: seq<Tok>, y: seq<Tok>)
    ensures (t + x) + y == [] + t + (x + y)
  {
  }

  lemma Rightmost(x: seq<Tok>, t: seq<Tok>)
    ensures x + t == x + t + []
  {
  }

  /** The tokens of a part are a stretch of the whole's. */
  lemma PartToks(s: Surface, i: nat) returns (a: seq<Tok>, b: seq<Tok>)
    requires i < |Parts(s)|
    ensures Toks(s) == a + Toks(Parts(s)[i]) + b
  {
    match s
    case Paren(_, _, _) => a, b := LonePart(s);
    case Cast(_, _, _, _, _, _) => a, b := LonePart(s);
    case Collate(_, _, _, _) => a, b := LonePart(s);
    case Postfix(_, _, _, _) => a, b := LonePart(s);
    case Prefix(_, _, _) => a, b := LonePart(s);
    case Infix(_, _, _, _) => a, b := TwoParts(s, i);
    case Is(_, _, _, _) => a, b := TwoParts(s, i);
    case Like(_, _, _, _, _) => a, b := TwoParts(s, i);
    case LikeEscape(_, _, _, _, _, _, _) => a, b := EscapeParts(s, i);
    case Betw(_, _, _, _, _, _) => a, b := BetweenParts(s, i);
    case Bracket(_, _, _, _, _) => a, b := BracketParts(s, i);
    case InList(_, _, _, _, _, _) => a, b := InListParts(s, i);
    case InSelect(_, _, _, _, _, _, _, _) => a, b := InSelectParts(s, i);
    case InNamed(_, _, _, _, _, _, _, _) => a, b := InNamedParts(s, i);
    case CaseOf(_, _, _, _, _) => a, b := CaseParts(s, i);
  }

  lemma LonePart(s: Surface) returns (a: seq<Tok>, b: seq<Tok>)
    requires s.Paren? || s.Cast? || s.Collate? || s.Postfix? || s.Prefix?
    ensures Parts(s) == [s.e] && Toks(s) == a + Toks(s.e) + b
  {
    match s
    case Paren(lp, e, rp) => a, b := [lp], [rp];
    case Cast(t, lp, e, ts, _, rp) => a, b := [t, lp], ts + [rp]; Assoc([t, lp] + Toks(e), ts, [rp]);
    case Collate(e, t, nm, _) => a, b := [], [t, nm]; Foremost(Toks(e), [t, nm], []);
    case Postfix(e, _, ts, last) => a, b := [], ts + [last]; Foremost(Toks(e), ts, [last]);
    case Prefix(t, _, e) => a, b := [t], []; Rightmost([t], Toks(e));
  }

  /** What stands between the two operands. */
  function Between2(s: Surface): seq<Tok>
    requires s.Infix? || s.Is? || s.Like?
  {
    match s case Infix(_, t, _, _) => [t] case Is(_, ts, _, _) => ts case Like(_, ts, _, _, _) => ts
  }

  lemma TwoPartsAre(s: Surface)
    requires s.Infix? || s.Is? || s.Like?
    ensures Parts(s) == [s.l, s.r] && Toks(s) == Toks(s.l) + Between2(s) + Toks(s.r)
  {
  }

  lemma TwoParts(s: Surface, i: nat) returns (a: seq<Tok>, b: seq<Tok>)
    requires (s.Infix? || s.Is? || s.Like?) && i < 2
    ensures Parts(s) == [s.l, s.r] && Toks(s) == a + Toks(Parts(s)[i]) + b
    ensures i == 0 ==> b == Between2(s) + Toks(s.r)
  {
    hide Toks, Between2, Parts;
    TwoPartsAre(s);
    if i == 0 {
      Foremost(Toks(s.l), Between2(s), Toks(s.r));
      a, b := [], Between2(s) + Toks(s.r);
    } else {
      Rightmost(Toks(s.l) + Between2(s), Toks(s.r));
      a, b := Toks(s.l) + Between2(s), [];
    }
  }

  lemma ThreeParts(x: seq<Tok>, m: seq<Tok>, y: seq<Tok>, t: seq<Tok>, z: seq<Tok>, i: nat)
    returns (a: seq<Tok>, b: seq<Tok>)
    requires i < 3
    ensures x + m + y + t + z == a + [x, y, z][i] + b
    ensures i == 0 ==> b == m + y + t + z
    ensures i == 1 ==> b == t + z
  {
    if i == 0 {
      a, b := [], m + y + t + z;
    } else if i == 1 {
      a, b := x + m, t + z;
    } else {
      a, b := x + m + y + t, [];
    }
  }

  lemma EscapeParts(s: Surface, i: nat) returns (a: seq<Tok>, b: seq<Tok>)
    requires s.LikeEscape? && i < 3
    ensures Parts(s) == [s.l, s.r, s.esc] && Toks(s) == a + Toks(Parts(s)[i]) + b
    ensures i == 0 ==> b == s.likeToks + Toks(s.r) + [s.escTok] + Toks(s.esc)
    ensures i == 1 ==> b == [s.escTok] + Toks(s.esc)
  {
    a, b := ThreeParts(Toks(s.l), s.likeToks, Toks(s.r), [s.escTok], Toks(s.esc), i);
  }

  lemma BetweenParts(s: Surface, i: nat) returns (a: seq<Tok>, b: seq<Tok>)
    requires s.Betw? && i < 3
    ensures Parts(s) == [s.e, s.lo, s.hi] && Toks(s) == a + Toks(Parts(s)[i]) + b
    ensures i == 0 ==> b == s.opToks + Toks(s.lo) + [s.andTok] + Toks(s.hi)
    ensures i == 1 ==> b == [s.andTok] + Toks(s.hi)
  {
    a, b := ThreeParts(Toks(s.e), s.opToks, Toks(s.lo), [s.andTok], Toks(s.hi), i);
  }

  lemma BracketParts(s: Surface, i: nat) returns (a: seq<Tok>, b: seq<Tok>)
    requires s.Bracket? && i < |Parts(s)|
    ensures Toks(s) == a + Toks(Parts(s)[i]) + b
  {
    assert Toks(s) == ([s.first] + s.head) + ItemToks(s.items) + [s.last];
    hide Toks, ItemToks;
    var a', b' := ItemPart(s.items, i);
    Widen([s.first] + s.head, a', Toks(Parts(s)[i]), b', [s.last]);
    a, b := [s.first] + s.head + a', b' + [s.last];
  }

  lemma InListParts(s: Surface, i: nat) returns (a: seq<Tok>, b: seq<Tok>)
    requires s.InList? && i < |Parts(s)|
    ensures Toks(s) == a + Toks(Parts(s)[i]) + b
  {
    assert Toks(s) == Toks(s.e) + s.inToks + [s.lp] + ItemToks(s.items) + [s.rp];
    hide Toks, ItemToks;
    Assoc(Toks(s.e), s.inToks, [s.lp]);
    a, b := AfterOperandParts(s.e, s.inToks + [s.lp], s.items, s.rp, i);
  }

  lemma InSelectParts(s: Surface, i: nat) returns (a: seq<Tok>, b: seq<Tok>)
    requires s.InSelect? && i < |Parts(s)|
    ensures Toks(s) == a + Toks(Parts(s)[i]) + b
  {
    assert Toks(s) == Toks(s.e) + s.inToks + [s.lp] + s.head + ItemToks(s.items) + [s.rp];
    hide Toks, ItemToks;
    Assoc(Toks(s.e), s.inToks, [s.lp]);
    Assoc(Toks(s.e), s.inToks + [s.lp], s.head);
    a, b := AfterOperandParts(s.e, s.inToks + [s.lp] + s.head, s.items, s.rp, i);
  }

  lemma AfterOperandParts(e: Surface, open: seq<Tok>, items: seq<Item>, rp: Tok, i: nat)
    returns (a: seq<Tok>, b: seq<Tok>)
    requires i <= |items|
    ensures Toks(e) + open + ItemToks(items) + [rp] == a + Toks(([e] + Exprs(items))[i]) + b
  {
    hide Toks, ItemToks;
    if i == 0 {
      Assoc(Toks(e) + open, ItemToks(items), [rp]);
      Foremost(Toks(e), open, ItemToks(items) + [rp]);
      a, b := [], open + (ItemToks(items) + [rp]);
    } else {
      var a', b' := ItemPart(items, i - 1);
      Widen(Toks(e) + open, a', Toks(items[i - 1].e), b', [rp]);
      a, b := Toks(e) + open + a', b' + [rp];
    }
  }

  function CallToks(s: Surface): seq<Tok>
    requires s.InNamed?
  {
    match s.args case None => [] case Some(x) => [x.lp] + ItemToks(x.items) + [x.rp]
  }

  function AfterOperand(s: Surface): seq<Tok>
    requires s.InNamed?
  {
    s.inToks + [s.nm] + OptToks(s.dot, s.dbnm)
  }

  lemma NamedToks(s: Surface)
    requires s.InNamed?
    ensures Toks(s) == UpToName(s) + CallToks(s) && UpToName(s) == Toks(s.e) + AfterOperand(s)
  {
    assert Toks(s) == UpToName(s) + CallToks(s) by {
      hide ItemToks;
    }
    hide ItemToks, Toks;
    Assoc(Toks(s.e), s.inToks, [s.nm]);
    Assoc(Toks(s.e), s.inToks + [s.nm], OptToks(s.dot, s.dbnm));
    hide OptToks;
  }

  lemma InNamedParts(s: Surface, i: nat) returns (a: seq<Tok>, b: seq<Tok>)
    requires s.InNamed? && i < |Parts(s)|
    ensures Toks(s) == a + Toks(Parts(s)[i]) + b
  {
    assert Parts(s) == [s.e] + ArgExprs(s);
    hide Toks, ItemToks, UpToName, OptToks, Parts, AfterOperand;
    NamedToks(s);
    if i == 0 {
      hide CallToks, ArgExprs;
      Foremost(Toks(s.e), AfterOperand(s), CallToks(s));
      a, b := [], AfterOperand(s) + CallToks(s);
    } else {
      var t := s.args.value.items[i - 1].e;
      var a', b' := CallParts(s, i - 1);
      hide CallToks;
      Assoc(UpToName(s), a' + Toks(t), b');
      Assoc(UpToName(s), a', Toks(t));
      a, b := UpToName(s) + a', b';
    }
  }

  lemma CallParts(s: Surface, i: nat) returns (a: seq<Tok>, b: seq<Tok>)
    requires s.InNamed? && s.args.Some? && i < |s.args.value.items|
    ensures CallToks(s) == a + Toks(s.args.value.items[i].e) + b
  {
    hide Toks, ItemToks;
    var x := s.args.value;
    var a', b' := ItemPart(x.items, i);
    Widen([x.lp], a', Toks(x.items[i].e), b', [x.rp]);
    a, b := [x.lp] + a', b' + [x.rp];
  }

  function OperandToks(s: Surface): seq<Tok>
    requires s.CaseOf?
  {
    match s.operand case None => [] case Some(e) => Toks(e)
  }

  function ElseToks(s: Surface): seq<Tok>
    requires s.CaseOf?
  {
    match s.els case None => [] case Some(x) => [x.elseTok] + Toks(x.e)
  }

  lemma CaseToks(s: Surface)
    requires s.CaseOf?
    ensures Toks(s) == ([s.caseTok] + OperandToks(s)) + WhenToks(s.whens) + (ElseToks(s) + [s.endTok])
  {
    hide WhenToks;
    assert Toks(s) == ([s.caseTok] + OperandToks(s)) + WhenToks(s.whens) + ElseToks(s) + [s.endTok];
    hide Toks, OperandToks, ElseToks;
    Assoc([s.caseTok] + OperandToks(s) + WhenToks(s.whens), ElseToks(s), [s.endTok]);
  }

  lemma Concat<T>(x: seq<T>, y: seq<T>, z: seq<T>, i: nat)
    requires i < |x + y + z|
    ensures (x + y + z)[i] ==
            if i < |x| then x[i] else if i < |x| + |y| then y[i - |x|] else z[i - |x| - |y|]
  {
  }

  lemma CasePartsAre(s: Surface, i: nat)
    requires s.CaseOf? && i < |Parts(s)|
    ensures var k := |OperandExprs(s.operand)|;
            && (i < k ==> OperandToks(s) == Toks(Parts(s)[i]))
            && (k <= i < k + 2 * |s.whens| ==> Parts(s)[i] == WhenExprs(s.whens)[i - k])
            && (k + 2 * |s.whens| <= i ==> s.els.Some? && ElseToks(s) == [s.els.value.elseTok] + Toks(Parts(s)[i]))
  {
    hide Toks, WhenExprs;
    assert Parts(s) == OperandExprs(s.operand) + WhenExprs(s.whens) + ElseExprs(s.els);
    hide Parts;
    Concat(OperandExprs(s.operand), WhenExprs(s.whens), ElseExprs(s.els), i);
  }

  lemma CaseParts(s: Surface, i: nat) returns (a: seq<Tok>, b: seq<Tok>)
    requires s.CaseOf? && i < |Parts(s)|
    ensures Toks(s) == a + Toks(Parts(s)[i]) + b
  {
    hide Toks, WhenToks, OperandToks, ElseToks, Parts;
    CaseToks(s);
    CasePartsAre(s, i);
    var k := |OperandExprs(s.operand)|;
    var t, pre, post := Toks(Parts(s)[i]), [s.caseTok] + OperandToks(s), ElseToks(s) + [s.endTok];
    if i < k {
      Assoc([s.caseTok] + t, WhenToks(s.whens), post);
      a, b := [s.caseTok], WhenToks(s.whens) + post;
    } else if i < k + 2 * |s.whens| {
      var a', b' := WhenPart(s.whens, i - k);
      Widen(pre, a', t, b', post);
      a, b := pre + a', b' + post;
    } else {
      var e := [s.els.value.elseTok];
      Assoc(pre + WhenToks(s.whens), e + t, [s.endTok]);
      Assoc(pre + WhenToks(s.whens), e, t);
      a, b := pre + WhenToks(s.whens) + e, [s.endTok];
    }
  }

  /** A part that is followed by the last operand ends before the whole does. */
  lemma EarlierPart(s: Surface, a: seq<Tok>, d: Surface, b: seq<Tok>, m: seq<Tok>, r: Surface)
    requires InOrder(Toks(s)) && Toks(s) == a + Toks(d) + b && b == m + Toks(r) && End(s) == End(r)
    ensures Toks(d) != [] && Last(Toks(d)).End() <= End(s)
  {
    hide Toks, Start, End;
    StartIsFirst(d);
    StartIsFirst(r);
    LastIsLatest(a, Toks(d), b);
    InOrderSuffix(a + Toks(d), b);
    assert b == m + Toks(r) + [];
    LastIsLatest(m, Toks(r), []);
    StartBeforeEnd(r);
  }

  /** Where a part lies: inside the whole tokens and all, or at its very end as the last operand, or past it as an
      argument of the table form of IN. */
  ghost predicate Placed(s: Surface, d: Surface) {
    && InOrder(Toks(d)) && Toks(d) != [] && Start(s) <= Start(d)
    && (Last(Toks(d)).End() <= End(s) || End(d) == End(s) || (End(s) < Start(d) && EndsInTableCall(s)))
  }

  lemma PartIsPlaced(s: Surface, i: nat)
    requires InOrder(Toks(s)) && i < |Parts(s)|
    ensures Placed(s, Parts(s)[i])
  {
    var a, b := PartToks(s, i);
    SpansNest(s, a, Parts(s)[i], b);
    if EndsInTableCall(s) {
      TrailingPart(s, i);
    }
  }

  lemma TrailingPart(s: Surface, i: nat)
    requires InOrder(Toks(s)) && i < |Parts(s)| && EndsInTableCall(s)
    ensures var d := Parts(s)[i];
            Toks(d) != [] && (Last(Toks(d)).End() <= End(s) || End(d) == End(s) || End(s) < Start(d))
  {
    StartIsFirst(Parts(s)[i]);
    if s.InNamed? {
      TableCallPart(s, i);
    } else {
      assert End(s) == End(Parts(s)[|Parts(s)| - 1]);
      if i < |Parts(s)| - 1 {
        var a, b, m := TrailingToks(s, i);
        EarlierPart(s, a, Parts(s)[i], b, m, Parts(s)[|Parts(s)| - 1]);
      }
    }
  }

  lemma TrailingToks(s: Surface, i: nat) returns (a: seq<Tok>, b: seq<Tok>, m: seq<Tok>)
    requires EndsInTableCall(s) && !s.InNamed? && i < |Parts(s)| - 1
    ensures Toks(s) == a + Toks(Parts(s)[i]) + b && b == m + Toks(Parts(s)[|Parts(s)| - 1])
  {
    if s.LikeEscape? {
      a, b := EscapeParts(s, i);
      m := if i == 0 then s.likeToks + Toks(s.r) + [s.escTok] else [s.escTok];
    } else if s.Betw? {
      a, b := BetweenParts(s, i);
      m := if i == 0 then s.opToks + Toks(s.lo) + [s.andTok] else [s.andTok];
    } else {
      a, b := TwoParts(s, i);
      m := Between2(s);
    }
    hide Toks, Parts, Between2;
  }

  lemma TableCallPart(s: Surface, i: nat)
    requires s.InNamed? && s.args.Some? && InOrder(Toks(s)) && i < |Parts(s)|
    ensures var d := Parts(s)[i];
            Toks(d) != [] && if i == 0 then Last(Toks(d)).End() <= End(s) else End(s) < Start(d)
  {
    if i == 0 {
      NamedOperand(s);
    } else {
      hide Toks, ItemToks, Start, End, InOrder;
      var a, b := ItemPart(s.args.value.items, i - 1);
      StartIsFirst(Parts(s)[i]);
      ArgumentsLieOutside(s, a, Parts(s)[i], b);
    }
  }

  lemma NamedOperand(s: Surface)
    requires s.InNamed? && InOrder(Toks(s))
    ensures Toks(s.e) != [] && Last(Toks(s.e)).End() <= End(s)
  {
    hide Toks, CallToks, AfterOperand, UpToName, InOrder, End;
    NamedToks(s);
    StartIsFirst(s.e);
    InOrderPrefix(UpToName(s), CallToks(s));
    assert [] + Toks(s.e) == Toks(s.e);
    LastIsLatest([], Toks(s.e), AfterOperand(s));
  }

  /** The span of every expression at any depth inside another lies inside its span, except below the arguments of a
      table form of IN that is the last operand, where it lies wholly past the end. */
  lemma {:induction false} PartsNest(c: Surface, s: Surface, n: nat)
    requires InOrder(Toks(s)) && Inside(c, s, n)
    ensures Toks(s) != [] && InOrder(Toks(c)) && Toks(c) != [] && Start(s) <= Start(c) < End(c)
    ensures Last(Toks(c)).End() <= Last(Toks(s)).End()
    ensures End(c) <= End(s) || (End(s) < Start(c) && EndsInTableCall(s))
    decreases n
  {
    hide Toks, Start, End, EndsInTableCall, Parts, InOrder;
    StartIsFirst(s);
    StartBeforeEnd(s);
    if n > 0 {
      var i := NextPart(c, s, n);
      PartFits(s, i);
      PartsNest(c, Parts(s)[i], n - 1);
      EndIsLast(c);
    }
  }

  lemma NextPart(c: Surface, s: Surface, n: nat) returns (i: nat)
    requires n > 0 && Inside(c, s, n)
    ensures i < |Parts(s)| && Inside(c, Parts(s)[i], n - 1)
  {
    hide Parts;
    var d :| d in Parts(s) && Inside(c, d, n - 1);
    i :| i < |Parts(s)| && Parts(s)[i] == d;
  }

  lemma PartFits(s: Surface, i: nat)
    requires InOrder(Toks(s)) && i < |Parts(s)|
    ensures Toks(s) != [] && Placed(s, Parts(s)[i]) && Last(Toks(Parts(s)[i])).End() <= Last(Toks(s)).End()
    ensures End(s) == Last(Toks(s)).End() || EndsInTableCall(s)
    ensures End(Parts(s)[i]) == Last(Toks(Parts(s)[i])).End() || EndsInTableCall(Parts(s)[i])
  {
    hide Toks, Start, End, EndsInTableCall, Parts, InOrder;
    EndIsLast(s);
    var a, b := PartToks(s, i);
    PartIsPlaced(s, i);
    LastIsLatest(a, Toks(Parts(s)[i]), b);
    EndIsLast(Parts(s)[i]);
  }
}
