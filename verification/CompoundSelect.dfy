/** Building compound SELECTs: the reduce actions that chain terms through `pPrior`, and the pass that
    double-links the chain.  Terms are heap objects updated in place. */
module CompoundSelect {
  import opened Options

  const SF_DISTINCT: bv32 := 0x00001
  const SF_ALL: bv32 := 0x00002
  const SF_COMPOUND: bv32 := 0x00100
  const SF_VALUES: bv32 := 0x00200
  const SF_MULTIVALUE: bv32 := 0x00400

  datatype Op = TK_SELECT | TK_ALL | TK_UNION | TK_EXCEPT | TK_INTERSECT

  class Select {
    /** Stands for the whole body of the term: its result columns or its row of values, or nothing for `*`. */
    const body: Option<nat>
    var op: Op
    var selFlags: bv32
    var pPrior: Select?
    var pNext: Select?
    /** The subquery in the FROM clause of a wrapper, if this is one. */
    const pFrom: Select?
    /** The chain behind `pFrom`, head first. */
    ghost const inner: seq<Select>

    constructor (body: Option<nat>, selFlags: bv32, pFrom: Select?, ghost inner: seq<Select>)
      ensures this.body == body && this.selFlags == selFlags && this.pFrom == pFrom && this.inner == inner
      ensures op == TK_SELECT && pPrior == null && pNext == null
    {
      this.body, this.selFlags, this.pFrom, this.inner := body, selFlags, pFrom, inner;
      op, pPrior, pNext := TK_SELECT, null, null;
    }

    predicate Has(flag: bv32)
      reads this
    {
      selFlags & flag != 0
    }
  }

  // --- Chains ---

  ghost function Nodes(s: seq<Select>): set<Select> {
    set x | x in s
  }

  ghost predicate PriorAt(s: seq<Select>, i: nat)
    requires i < |s|
    reads s[i]
  {
    s[i].pPrior == if i + 1 < |s| then s[i + 1] else null
  }

  ghost predicate NextAt(s: seq<Select>, i: nat)
    requires i < |s|
    reads s[i]
  {
    s[i].pNext == if i == 0 then null else s[i - 1]
  }

  ghost predicate Distinct(s: seq<Select>) {
    forall i: nat, j: nat | i < j < |s| :: s[i] != s[j]
  }

  /** `s` lists the terms from `p` along `pPrior`, each once, ending in null. */
  ghost predicate Chain(p: Select, s: seq<Select>)
    reads s
  {
    && |s| > 0 && s[0] == p
    && (forall i: nat | i < |s| :: PriorAt(s, i))
    && Distinct(s)
  }

  /** `pNext` is the exact inverse of `pPrior`, with a null link at the head. */
  ghost predicate BackLinked(s: seq<Select>)
    reads s
  {
    forall i: nat | i < |s| :: NextAt(s, i)
  }

  lemma LinkedFlags(f: bv32)
    ensures (f | SF_COMPOUND) & SF_COMPOUND != 0
    ensures (f | SF_COMPOUND) & SF_MULTIVALUE == f & SF_MULTIVALUE
    ensures (f | SF_COMPOUND) & SF_VALUES == f & SF_VALUES
    ensures (f | SF_COMPOUND) & SF_DISTINCT == f & SF_DISTINCT
    ensures (f | SF_COMPOUND) & SF_ALL == f & SF_ALL
  {
  }

  lemma ClearedFlags(f: bv32)
    ensures (f & !SF_MULTIVALUE) & SF_MULTIVALUE == 0
    ensures (f & !SF_MULTIVALUE) & SF_VALUES == f & SF_VALUES
    ensures (f & !SF_MULTIVALUE) & SF_COMPOUND == f & SF_COMPOUND
    ensures (f & !SF_MULTIVALUE) & SF_DISTINCT == f & SF_DISTINCT
    ensures (f & !SF_MULTIVALUE) & SF_ALL == f & SF_ALL
  {
  }

  /** Double-link a chain of two or more terms; report whether it exceeds the compound limit. */
  method DoubleLinkSelect(p: Select, mxSelect: int, ghost s: seq<Select>) returns (tooMany: bool)
    requires Chain(p, s)
    modifies Nodes(s)`pNext, Nodes(s)`selFlags
    ensures Chain(p, s)
    ensures |s| == 1 ==> p.pNext == old(p.pNext) && p.selFlags == old(p.selFlags) && !tooMany
    ensures |s| > 1 ==> BackLinked(s)
    ensures |s| > 1 ==> forall i: nat | i < |s| :: s[i].selFlags == old(s[i].selFlags) | SF_COMPOUND
    ensures |s| > 1 ==> (tooMany <==> !old(p.Has(SF_MULTIVALUE)) && 0 < mxSelect < |s|)
  {
    tooMany := false;
    assert PriorAt(s, 0);
    if p.pPrior != null {
      var pNext: Select?, pLoop: Select?, cnt := null, p, 0;
      while pLoop != null
        invariant 0 <= cnt <= |s|
        invariant pLoop == if cnt < |s| then s[cnt] else null
        invariant pNext == if cnt == 0 then null else s[cnt - 1]
        invariant forall i: nat | i < |s| :: PriorAt(s, i)
        invariant forall i: nat | i < cnt :: NextAt(s, i)
        invariant forall i: nat | i < cnt :: s[i].selFlags == old(s[i].selFlags) | SF_COMPOUND
        invariant forall i: nat | cnt <= i < |s| :: s[i].selFlags == old(s[i].selFlags)
        decreases |s| - cnt
      {
        assert PriorAt(s, cnt);
        Link(pLoop, pNext, s, cnt);
        pNext, pLoop, cnt := pLoop, pLoop.pPrior, cnt + 1;
      }
      LinkedFlags(old(p.selFlags));
      if !p.Has(SF_MULTIVALUE) && mxSelect > 0 && cnt > mxSelect {
        tooMany := true;
      }
    }
  }

  /** The body of the loop: one back link and one flag, on one term and no other. */
  method Link(pLoop: Select, pNext: Select?, ghost s: seq<Select>, ghost at: nat)
    requires at < |s| && s[at] == pLoop && Distinct(s)
    requires pNext == if at == 0 then null else s[at - 1]
    requires forall i: nat | i < |s| :: PriorAt(s, i)
    requires forall i: nat | i < at :: NextAt(s, i)
    modifies pLoop`pNext, pLoop`selFlags
    ensures forall i: nat | i < |s| :: PriorAt(s, i)
    ensures forall i: nat | i <= at :: NextAt(s, i)
    ensures pLoop.selFlags == old(pLoop.selFlags) | SF_COMPOUND
    ensures forall i: nat | i < |s| && i != at :: s[i].selFlags == old(s[i].selFlags)
  {
    forall i: nat | i < |s|
      ensures PriorAt(s, i) && (i < at ==> NextAt(s, i)) && (i != at ==> s[i] != pLoop)
    {
      if i < at { assert s[i] != s[at]; }
      if at < i { assert s[at] != s[i]; }
    }
    pLoop.pNext := pNext;
    pLoop.selFlags := pLoop.selFlags | SF_COMPOUND;
    forall i: nat | i < |s|
      ensures PriorAt(s, i) && (i <= at ==> NextAt(s, i))
    {
      assert old(PriorAt(s, i)) && (i < at ==> old(NextAt(s, i)));
      if i < at { assert s[i] != s[at]; }
    }
  }

  // --- What a chain stands for ---

  /** What stands between SELECT and its result columns. */
  datatype Quantifier = Unsaid | DistinctRows | AllRows

  /** A term as written: a SELECT, one row of VALUES, or a whole multi-row VALUES behind a wrapper. */
  datatype Term = Plain(body: nat, quantifier: Quantifier) | Row(body: nat) | Wrapped(rows: seq<nat>)

  /** The two flags say what was written, and neither is set if nothing was. */
  predicate Says(n: Select, quantifier: Quantifier)
    reads n
  {
    (n.Has(SF_DISTINCT) <==> quantifier.DistinctRows?) && (n.Has(SF_ALL) <==> quantifier.AllRows?)
  }

  ghost predicate IsLeaf(n: Select, body: nat, quantifier: Quantifier, row: bool)
    reads n
  {
    && n.pFrom == null && n.inner == [] && n.body == Some(body)
    && Says(n, quantifier) && (n.Has(SF_VALUES) <==> row)
  }

  ghost function InnerSet(n: Select): set<Select> {
    set y | y in n.inner
  }

  ghost predicate InnerRow(n: Select, rows: seq<nat>, i: nat)
    requires i < |rows| == |n.inner|
    reads InnerSet(n)
  {
    IsLeaf(n.inner[i], rows[|rows| - 1 - i], Unsaid, true) && n.inner[i].Has(SF_COMPOUND)
  }

  ghost predicate Denotes(n: Select, t: Term)
    reads n, InnerSet(n)
  {
    match t
    case Plain(b, q) => IsLeaf(n, b, q, false)
    case Row(b) => IsLeaf(n, b, Unsaid, true)
    case Wrapped(rows) =>
      && n.body == None && Says(n, Unsaid) && !n.Has(SF_VALUES) && n.pFrom != null && |n.inner| == |rows| > 1
      && Chain(n.pFrom, n.inner) && BackLinked(n.inner)
      && forall i: nat | i < |rows| :: InnerRow(n, rows, i)
  }

  /** Position `i` of the chain, counted from the head, is the `i`-th term from the right. */
  ghost predicate TermAt(s: seq<Select>, terms: seq<Term>, ops: seq<Op>, pure: bool, i: nat)
    requires i < |s| == |terms| == |ops|
    reads s[i], InnerSet(s[i])
  {
    && Denotes(s[i], terms[|s| - 1 - i])
    && s[i].op == ops[|s| - 1 - i]
    && (s[i].Has(SF_MULTIVALUE) <==> i == 0 && pure)
  }

  ghost predicate Apart(s: seq<Select>, i: nat, j: nat)
    requires i < |s| && j < |s|
  {
    s[i] !in s[j].inner
  }

  ghost predicate Owned(s: seq<Select>, repr: set<Select>) {
    && (forall x | x in s :: x in repr)
    && (forall i: nat | i < |s| :: OwnedAt(s, i, repr))
  }

  ghost predicate OwnedAt(s: seq<Select>, i: nat, repr: set<Select>)
    requires i < |s|
  {
    s[i] in repr && InnerSet(s[i]) <= repr
  }

  /** The chain from `p` lists the terms in reverse source order with the operator before each, and at most the
      head carries the multi-value flag: exactly when the whole chain is one VALUES clause of several rows.
      `repr` holds every object the chain reaches. */
  ghost predicate Built(p: Select, s: seq<Select>, repr: set<Select>, terms: seq<Term>, ops: seq<Op>, pure: bool)
    reads repr
  {
    && Owned(s, repr) && Chain(p, s) && |s| == |terms| == |ops|
    && (forall i: nat | i < |s| :: OwnedAt(s, i, repr) && TermAt(s, terms, ops, pure, i))
    && (forall i: nat, j: nat | i < |s| && j < |s| :: Apart(s, i, j))
  }

  // --- The reduce actions ---

  /** `pLeft->selFlags &= ~SF_MultiValue` */
  method ClearMultiValue(p: Select, ghost s: seq<Select>, ghost repr: set<Select>, ghost terms: seq<Term>,
                         ghost ops: seq<Op>, ghost pure: bool)
    requires Built(p, s, repr, terms, ops, pure)
    modifies p`selFlags
    ensures Built(p, s, repr, terms, ops, false)
  {
    hide BackLinked, InnerRow, PriorAt, NextAt;
    ClearedFlags(p.selFlags);
    forall i: nat | i < |s|
      ensures p !in InnerSet(s[i]) && (i > 0 ==> p != s[i])
    {
      assert Apart(s, 0, i);
      assert i > 0 ==> s[0] != s[i];
    }
    p.selFlags := p.selFlags & !SF_MULTIVALUE;
    PriorsKept(s);
    forall i: nat | i < |s|
      ensures TermAt(s, terms, ops, false, i)
    {
      assert old(TermAt(s, terms, ops, pure, i));
      assert old(allocated(s[i])) && p !in InnerSet(s[i]);
      if i > 0 {
        assert TermAt(s, terms, ops, pure, i);
      }
    }
  }

  twostate lemma PriorsKept(s: seq<Select>)
    requires forall i: nat | i < |s| :: old(PriorAt(s, i)) && s[i].pPrior == old(s[i].pPrior)
    ensures forall i: nat | i < |s| :: PriorAt(s, i)
  {
    forall i: nat | i < |s|
      ensures PriorAt(s, i)
    {
      assert old(PriorAt(s, i));
    }
  }

  /** Putting a term on top of a chain whose own flags are clear. */
  lemma ConsIsBuilt(n: Select, p: Select, s: seq<Select>, repr: set<Select>, terms: seq<Term>, ops: seq<Op>, t: Term,
                    op: Op, pure: bool)
    requires Built(p, s, repr, terms, ops, false) && n !in repr && n !in n.inner
    requires forall i: nat | i < |s| :: s[i] !in n.inner
    requires n.pPrior == p && Denotes(n, t) && n.op == op && (n.Has(SF_MULTIVALUE) <==> pure)
    ensures Built(n, [n] + s, repr + {n} + InnerSet(n), terms + [t], ops + [op], pure)
  {
    var s', terms', ops' := [n] + s, terms + [t], ops + [op];
    forall i: nat | i < |s'|
      ensures TermAt(s', terms', ops', pure, i) && PriorAt(s', i) && OwnedAt(s', i, repr + {n} + InnerSet(n))
    {
      if i > 0 {
        assert OwnedAt(s, i - 1, repr);
        assert TermAt(s, terms, ops, false, i - 1) && PriorAt(s, i - 1);
        assert terms'[|s'| - 1 - i] == terms[|s| - 1 - (i - 1)] && ops'[|s'| - 1 - i] == ops[|s| - 1 - (i - 1)];
      }
    }
    forall i: nat, j: nat | i < |s'| && j < |s'|
      ensures Apart(s', i, j)
    {
      if i > 0 && j > 0 {
        assert Apart(s, i - 1, j - 1);
      } else if j > 0 {
        assert OwnedAt(s, j - 1, repr) && n !in InnerSet(s[j - 1]);
      }
    }
    forall i: nat, j: nat | i < j < |s'|
      ensures s'[i] != s'[j]
    {
      if i > 0 {
        assert s[i - 1] != s[j - 1];
      }
    }
  }

  lemma OneIsBuilt(p: Select, t: Term)
    requires p.pPrior == null && Denotes(p, t) && p.op == TK_SELECT && !p.Has(SF_MULTIVALUE) && p !in p.inner
    ensures Built(p, [p], {p} + InnerSet(p), [t], [TK_SELECT], false)
  {
    assert OwnedAt([p], 0, {p} + InnerSet(p));
    assert PriorAt([p], 0) && TermAt([p], [t], [TK_SELECT], false, 0) && Apart([p], 0, 0);
  }

  /** Each flag a term starts with is one bit of its own. */
  lemma FreshFlags()
    ensures SF_VALUES & SF_VALUES != 0 && SF_VALUES & SF_MULTIVALUE == 0
    ensures (SF_VALUES | SF_MULTIVALUE) & SF_VALUES != 0 && (SF_VALUES | SF_MULTIVALUE) & SF_MULTIVALUE != 0
    ensures SF_VALUES & SF_DISTINCT == 0 && SF_VALUES & SF_ALL == 0
    ensures (SF_VALUES | SF_MULTIVALUE) & SF_DISTINCT == 0 && (SF_VALUES | SF_MULTIVALUE) & SF_ALL == 0
    ensures SF_DISTINCT & SF_DISTINCT != 0 && SF_DISTINCT & SF_ALL == 0 && SF_ALL & SF_ALL != 0 && SF_ALL & SF_DISTINCT == 0
    ensures SF_DISTINCT & SF_VALUES == 0 && SF_DISTINCT & SF_MULTIVALUE == 0
    ensures SF_ALL & SF_VALUES == 0 && SF_ALL & SF_MULTIVALUE == 0
  {
  }

  /** `distinct ::= DISTINCT`, `ALL` or nothing. */
  function FlagsOf(quantifier: Quantifier): bv32 {
    match quantifier
    case Unsaid => 0
    case DistinctRows => SF_DISTINCT
    case AllRows => SF_ALL
  }

  /** `oneselect ::= SELECT ...`, with the flag of whatever DISTINCT or ALL was written. */
  method OneSelect(body: nat, quantifier: Quantifier) returns (p: Select)
    ensures fresh(p) && Built(p, [p], {p}, [Plain(body, quantifier)], [TK_SELECT], false)
  {
    p := new Select(Some(body), FlagsOf(quantifier), null, []);
    FreshFlags();
    assert {p} + InnerSet(p) == {p};
    OneIsBuilt(p, Plain(body, quantifier));
  }

  /** `values ::= VALUES LP nexprlist RP` */
  method FirstRow(body: nat) returns (p: Select)
    ensures fresh(p) && Built(p, [p], {p}, [Row(body)], [TK_SELECT], false)
  {
    p := new Select(Some(body), SF_VALUES, null, []);
    FreshFlags();
    assert {p} + InnerSet(p) == {p};
    OneIsBuilt(p, Row(body));
  }

  /** `values ::= values COMMA LP exprlist RP` */
  method AddRow(pLeft: Select, body: nat, ghost s: seq<Select>, ghost repr: set<Select>, ghost terms: seq<Term>,
                ghost ops: seq<Op>, ghost pure: bool)
    returns (pRight: Select)
    requires Built(pLeft, s, repr, terms, ops, pure)
    modifies pLeft`selFlags
    ensures fresh(pRight)
    ensures Built(pRight, [pRight] + s, repr + {pRight}, terms + [Row(body)], ops + [TK_ALL], true)
  {
    pRight := new Select(Some(body), SF_VALUES | SF_MULTIVALUE, null, []);
    ClearMultiValue(pLeft, s, repr, terms, ops, pure);
    pRight.op := TK_ALL;
    pRight.pPrior := pLeft;
    FreshFlags();
    assert repr + {pRight} + InnerSet(pRight) == repr + {pRight};
    ConsIsBuilt(pRight, pLeft, s, repr, terms, ops, Row(body), TK_ALL, true);
  }

  // --- Double-linking a built chain, and wrapping it ---

  ghost predicate AllCompound(s: seq<Select>)
    reads s
  {
    forall i: nat | i < |s| :: s[i].Has(SF_COMPOUND)
  }

  /** Double-linking changes nothing that a chain stands for. */
  method LinkBuilt(p: Select, mxSelect: int, ghost s: seq<Select>, ghost repr: set<Select>, ghost terms: seq<Term>,
                   ghost ops: seq<Op>, ghost pure: bool)
    returns (tooMany: bool)
    requires Built(p, s, repr, terms, ops, pure)
    modifies Nodes(s)`pNext, Nodes(s)`selFlags
    ensures Built(p, s, repr, terms, ops, pure)
    ensures |s| > 1 ==> BackLinked(s) && AllCompound(s)
    ensures |s| == 1 ==> p.pNext == old(p.pNext)
    ensures tooMany <==> |s| > 1 && !pure && 0 < mxSelect < |s|
  {
    assert TermAt(s, terms, ops, pure, 0);
    tooMany := DoubleLinkSelect(p, mxSelect, s);
    forall i: nat | i < |s|
      ensures TermAt(s, terms, ops, pure, i) && (|s| > 1 ==> s[i].Has(SF_COMPOUND))
    {
      assert old(TermAt(s, terms, ops, pure, i)) && OwnedAt(s, i, repr);
      LinkedFlags(old(s[i].selFlags));
      InnersApart(s, i);
      var n := s[i];
      if terms[|s| - 1 - i].Wrapped? {
        assert old(Chain(n.pFrom, n.inner) && BackLinked(n.inner));
        forall j: nat | j < |n.inner|
          ensures PriorAt(n.inner, j) && NextAt(n.inner, j) && InnerRow(n, terms[|s| - 1 - i].rows, j)
        {
          assert old(PriorAt(n.inner, j) && NextAt(n.inner, j) && InnerRow(n, terms[|s| - 1 - i].rows, j));
          assert n.inner[j] in InnerSet(n);
        }
      }
    }
  }

  lemma InnersApart(s: seq<Select>, i: nat)
    requires i < |s| && forall j: nat | j < |s| :: Apart(s, j, i)
    ensures forall y | y in InnerSet(s[i]) :: y !in s
  {
    forall y | y in InnerSet(s[i])
      ensures y !in s
    {
      forall j: nat | j < |s|
        ensures s[j] != y
      {
        assert Apart(s, j, i);
      }
    }
  }

  /** How a finished `oneselect` enters a compound on the right: as itself, or wrapped if it is several rows. */
  function RhsTerm(terms: seq<Term>): Term
    requires |terms| > 0
  {
    if |terms| == 1 then terms[0] else Wrapped(Bodies(terms))
  }

  function Bodies(terms: seq<Term>): (bs: seq<nat>)
    ensures |bs| == |terms|
  {
    seq(|terms|, i requires 0 <= i < |terms| => if terms[i].Wrapped? then 0 else terms[i].body)
  }

  ghost predicate IsOneSelect(terms: seq<Term>, pure: bool) {
    && |terms| > 0 && (|terms| > 1 ==> pure)
    && (forall i | 0 <= i < |terms| :: !terms[i].Wrapped? && (|terms| > 1 ==> terms[i].Row?))
  }

  /** `SELECT * FROM (pRhs)`, the wrapper around a VALUES clause of several rows.  Double-linking that clause
      never runs into the compound limit. */
  method Wrap(pRhs: Select, mxSelect: int, ghost s: seq<Select>, ghost repr: set<Select>, ghost terms: seq<Term>,
              ghost ops: seq<Op>)
    returns (p: Select, tooMany: bool)
    requires Built(pRhs, s, repr, terms, ops, true) && IsOneSelect(terms, true) && |s| > 1
    modifies Nodes(s)`pNext, Nodes(s)`selFlags
    ensures fresh(p) && p.pPrior == null && Denotes(p, RhsTerm(terms)) && p.inner == s && !p.Has(SF_MULTIVALUE) && !tooMany
  {
    tooMany := LinkBuilt(pRhs, mxSelect, s, repr, terms, ops, true);
    ghost var rows := Bodies(terms);
    forall i: nat | i < |s|
      ensures IsLeaf(s[i], rows[|s| - 1 - i], Unsaid, true)
    {
      assert terms[|s| - 1 - i].Row?;
      assert TermAt(s, terms, ops, true, i);
    }
    p := new Select(None, 0, pRhs, s);
    forall i: nat | i < |s|
      ensures InnerRow(p, rows, i)
    {
      assert IsLeaf(s[i], rows[|s| - 1 - i], Unsaid, true) && s[i].Has(SF_COMPOUND);
    }
  }

  /** The right-hand side as a single term, wrapped if need be. */
  method AsOneTerm(pRhs: Select, mxSelect: int, ghost s: seq<Select>, ghost repr: set<Select>,
                   ghost terms: seq<Term>, ghost ops: seq<Op>, ghost pure: bool)
    returns (p: Select, tooMany: bool)
    requires Built(pRhs, s, repr, terms, ops, pure) && IsOneSelect(terms, pure)
    modifies Nodes(s)`pNext, Nodes(s)`selFlags
    ensures Denotes(p, RhsTerm(terms)) && InnerSet(p) <= repr && p !in p.inner && !tooMany
    ensures p in repr || fresh(p)
  {
    p, tooMany := pRhs, false;
    assert PriorAt(s, 0) && TermAt(s, terms, ops, pure, 0) && OwnedAt(s, 0, repr);
    if pRhs.pPrior != null {
      p, tooMany := Wrap(pRhs, mxSelect, s, repr, terms, ops);
      forall x | x in InnerSet(p)
        ensures x in repr
      {
        assert x in s;
      }
    }
  }

  /** Link a term in front of the chain and clear the multi-value flag on both sides. */
  method Join(p: Select, pLhs: Select, op: Op, ghost s: seq<Select>, ghost repr: set<Select>, ghost terms: seq<Term>,
              ghost ops: seq<Op>, ghost pure: bool, ghost t: Term)
    requires Built(pLhs, s, repr, terms, ops, pure) && p !in repr && InnerSet(p) !! repr && p !in p.inner && Denotes(p, t)
    modifies p`op, p`pPrior, p`selFlags, pLhs`selFlags
    ensures Built(p, [p] + s, repr + {p} + InnerSet(p), terms + [t], ops + [op], false)
  {
    hide BackLinked, InnerRow, PriorAt, NextAt;
    p.op := op;
    p.pPrior := pLhs;
    assert OwnedAt(s, 0, repr);
    ClearMultiValue(pLhs, s, repr, terms, ops, pure);
    ClearedFlags(p.selFlags);
    p.selFlags := p.selFlags & !SF_MULTIVALUE;
    forall i: nat | i < |s|
      ensures s[i] !in p.inner
    {
      assert OwnedAt(s, i, repr);
      assert s[i] in repr && s[i] !in InnerSet(p);
    }
    ConsIsBuilt(p, pLhs, s, repr, terms, ops, t, op, false);
  }

  /** `selectnowith ::= selectnowith multiselect_op oneselect` */
  method SetOperator(pLhs: Select, op: Op, pRhs: Select, mxSelect: int,
                     ghost s: seq<Select>, ghost repr: set<Select>, ghost terms: seq<Term>, ghost ops: seq<Op>, ghost pure: bool,
                     ghost sr: seq<Select>, ghost reprR: set<Select>, ghost termsR: seq<Term>, ghost opsR: seq<Op>, ghost pureR: bool)
    returns (p: Select, tooMany: bool, hasCompound: bool, ghost repr': set<Select>)
    requires Built(pLhs, s, repr, terms, ops, pure) && Built(pRhs, sr, reprR, termsR, opsR, pureR)
    requires repr !! reprR && IsOneSelect(termsR, pureR)
    modifies repr, reprR
    ensures Built(p, [p] + s, repr', terms + [RhsTerm(termsR)], ops + [op], false)
    ensures fresh(repr' - repr - reprR) && !tooMany && hasCompound == (op != TK_ALL)
  {
    assert Nodes(sr) <= reprR && OwnedAt(s, 0, repr);
    p, tooMany := AsOneTerm(pRhs, mxSelect, sr, reprR, termsR, opsR, pureR);
    Join(p, pLhs, op, s, repr, terms, ops, pure, RhsTerm(termsR));
    hasCompound := op != TK_ALL;
    repr' := repr + {p} + InnerSet(p);
  }

  // --- Every compound that can be written ---

  datatype Core = One(body: nat, quantifier: Quantifier) | Values(rows: seq<nat>)

  datatype Compound = Compound(first: Core, rest: seq<(Op, Core)>)

  predicate IsCore(c: Core) {
    c.Values? ==> |c.rows| > 0
  }

  predicate IsCompound(c: Compound) {
    IsCore(c.first) && forall i | 0 <= i < |c.rest| :: IsCore(c.rest[i].1)
  }

  predicate ManyRows(c: Core) {
    c.Values? && |c.rows| > 1
  }

  function RowTerms(rows: seq<nat>): (ts: seq<Term>)
    ensures |ts| == |rows|
  {
    seq(|rows|, i requires 0 <= i < |rows| => Row(rows[i]))
  }

  function CoreTerms(c: Core): (ts: seq<Term>)
    requires IsCore(c)
    ensures |ts| > 0
  {
    match c
    case One(body, quantifier) => [Plain(body, quantifier)]
    case Values(rows) => RowTerms(rows)
  }

  function CoreOps(c: Core): (os: seq<Op>)
    requires IsCore(c)
    ensures |os| == |CoreTerms(c)|
  {
    [TK_SELECT] + seq(|CoreTerms(c)| - 1, i => TK_ALL)
  }

  /** The terms of the first core and the first `k` others, in source order. */
  function Terms(c: Compound, k: nat): (ts: seq<Term>)
    requires IsCompound(c) && k <= |c.rest|
    ensures |ts| > 0
  {
    if k == 0 then CoreTerms(c.first) else Terms(c, k - 1) + [RhsTerm(CoreTerms(c.rest[k - 1].1))]
  }

  function Ops(c: Compound, k: nat): (os: seq<Op>)
    requires IsCompound(c) && k <= |c.rest|
    ensures |os| == |Terms(c, k)|
  {
    if k == 0 then CoreOps(c.first) else Ops(c, k - 1) + [c.rest[k - 1].0]
  }

  /** The whole statement is one VALUES clause of several rows. */
  predicate PureValues(c: Compound) {
    c.rest == [] && ManyRows(c.first)
  }

  lemma HeadIsOwned(p: Select, s: seq<Select>, repr: set<Select>, terms: seq<Term>, ops: seq<Op>, pure: bool)
    requires Built(p, s, repr, terms, ops, pure)
    ensures p in repr && Nodes(s) <= repr
  {
    assert OwnedAt(s, 0, repr);
  }

  method BuildCore(c: Core) returns (p: Select, ghost s: seq<Select>, ghost repr: set<Select>)
    requires IsCore(c)
    ensures fresh(repr) && Built(p, s, repr, CoreTerms(c), CoreOps(c), ManyRows(c))
    ensures IsOneSelect(CoreTerms(c), ManyRows(c))
  {
    hide Built, IsLeaf;
    match c {
      case One(body, quantifier) =>
        p := OneSelect(body, quantifier);
        s, repr := [p], {p};
        assert CoreOps(c) == [TK_SELECT];
      case Values(rows) =>
        p := FirstRow(rows[0]);
        s, repr := [p], {p};
        var k := 1;
        assert RowTerms(rows[..1]) == [Row(rows[0])] && CoreOps(Values(rows[..1])) == [TK_SELECT];
        while k < |rows|
          invariant 1 <= k <= |rows| && fresh(repr)
          invariant Built(p, s, repr, RowTerms(rows[..k]), CoreOps(Values(rows[..k])), k > 1)
        {
          HeadIsOwned(p, s, repr, RowTerms(rows[..k]), CoreOps(Values(rows[..k])), k > 1);
          var q := AddRow(p, rows[k], s, repr, RowTerms(rows[..k]), CoreOps(Values(rows[..k])), k > 1);
          assert RowTerms(rows[..k]) + [Row(rows[k])] == RowTerms(rows[..k + 1]);
          assert CoreOps(Values(rows[..k])) + [TK_ALL] == CoreOps(Values(rows[..k + 1]));
          p, s, repr, k := q, [q] + s, repr + {q}, k + 1;
        }
        assert rows[..k] == rows;
    }
  }

  /** The whole parse of a SELECT: cores and operators left to right, then the final double link.  The chain
      lists the terms, is linked both ways and flagged when it has two or more, and the limit error is raised
      exactly when the limit is positive, the chain is longer, and it is not a lone VALUES clause. */
  method BuildSelect(c: Compound, mxSelect: int)
    returns (p: Select, tooMany: bool, hasCompound: bool, ghost s: seq<Select>, ghost repr: set<Select>)
    requires IsCompound(c)
    ensures fresh(repr) && Built(p, s, repr, Terms(c, |c.rest|), Ops(c, |c.rest|), PureValues(c))
    ensures |s| > 1 ==> BackLinked(s) && AllCompound(s)
    ensures tooMany <==> |s| > 1 && 0 < mxSelect < |s| && !PureValues(c)
    ensures hasCompound <==> exists i | 0 <= i < |c.rest| :: c.rest[i].0 != TK_ALL
  {
    hide Built, RhsTerm, CoreTerms, CoreOps, BackLinked, AllCompound, IsOneSelect;
    p, s, repr := BuildCore(c.first);
    hasCompound := false;
    var k := 0;
    while k < |c.rest|
      invariant 0 <= k <= |c.rest| && fresh(repr)
      invariant Built(p, s, repr, Terms(c, k), Ops(c, k), k == 0 && ManyRows(c.first))
      invariant hasCompound <==> exists i | 0 <= i < k :: c.rest[i].0 != TK_ALL
    {
      var op, core := c.rest[k].0, c.rest[k].1;
      var q, sr, reprR := BuildCore(core);
      var over, compound;
      p, over, compound, repr := SetOperator(p, op, q, mxSelect, s, repr, Terms(c, k), Ops(c, k), k == 0 && ManyRows(c.first),
                                             sr, reprR, CoreTerms(core), CoreOps(core), ManyRows(core));
      s := [p] + s;
      hasCompound := hasCompound || compound;
      k := k + 1;
    }
    HeadIsOwned(p, s, repr, Terms(c, k), Ops(c, k), PureValues(c));
    tooMany := LinkBuilt(p, mxSelect, s, repr, Terms(c, k), Ops(c, k), PureValues(c));
  }

  /** Only the leftmost VALUES clause spreads its rows over the chain; every operator adds one term, and the
      terms it adds are never several rows side by side. */
  lemma {:induction false} ChainLength(c: Compound, k: nat)
    requires IsCompound(c) && k <= |c.rest|
    ensures |Terms(c, k)| == (if c.first.Values? then |c.first.rows| else 1) + k
    ensures forall i: nat | i < k :: Terms(c, k)[|CoreTerms(c.first)| + i] == RhsTerm(CoreTerms(c.rest[i].1))
    ensures forall i: nat | i < k :: Ops(c, k)[|CoreTerms(c.first)| + i] == c.rest[i].0
  {
    hide RhsTerm, CoreTerms, CoreOps;
    CoreLength(c.first);
    if k > 0 {
      ChainLength(c, k - 1);
      assert Terms(c, k) == Terms(c, k - 1) + [RhsTerm(CoreTerms(c.rest[k - 1].1))];
      assert Ops(c, k) == Ops(c, k - 1) + [c.rest[k - 1].0];
      hide Terms, Ops;
    }
  }

  lemma CoreLength(c: Core)
    requires IsCore(c)
    ensures |CoreTerms(c)| == if c.Values? then |c.rows| else 1
  {
  }
}
