/** The compressed action table: all rows overlaid in one array, told apart by the lookahead alone. */
module PackedTables {
  import opened Grammars
  import opened Automata

  /** `shiftMin` and `shiftMax` are the generator's bounds on the shift offsets; they decide at
      compile time which range checks guard the wildcard read.  A state without a row of its own has
      the sentinel offset `|action|` (shift) or `reduceUseDflt` (reduce). */
  datatype Packed = Packed(
    action: seq<nat>,
    lookahead: seq<nat>,
    shiftOfst: seq<int>,
    reduceOfst: seq<int>,
    dflt: seq<nat>,
    shiftMin: int,
    shiftMax: int,
    reduceUseDflt: int)
  {
    /** A row's entry for `x`, seen from offset `ofst`: the slot is in range and tagged with `x`. */
    predicate Hit(ofst: int, x: nat) {
      0 <= ofst + x < |action| == |lookahead| && lookahead[ofst + x] == x
    }

    ghost predicate StoresShift(a: Automaton, s: nat)
      requires s < |a.shift| == |shiftOfst|
    {
      forall x | x in a.shift[s] :: x < a.g.nTerminal && Hit(shiftOfst[s], x) && action[shiftOfst[s] + x] == a.shift[s][x]
    }

    ghost predicate StoresGoto(a: Automaton, s: nat)
      requires s < |a.goto|
    {
      forall x | x in a.goto[s] ::
        && a.g.nTerminal <= x
        && s < |reduceOfst| && reduceOfst[s] != reduceUseDflt
        && Hit(reduceOfst[s], x) && action[reduceOfst[s] + x] == a.goto[s][x]
    }

    /** A slot that state `s` can reach and that is tagged with the symbol it looks for is in its own row. */
    ghost predicate OwnRow(a: Automaton, s: nat, x: nat)
      requires s < |a.shift| == |shiftOfst|
    {
      Hit(shiftOfst[s], x) ==> x in a.shift[s]
    }

    /** What the generator does: it stores every explicit action at offset plus symbol, and lets no state reach a
        slot of another row by the tag of one of its own symbols. */
    ghost predicate Packs(a: Automaton) {
      && a.Sized()
      && |action| == |lookahead|
      && |shiftOfst| == a.nState && |reduceOfst| <= a.nState && dflt == a.dflt
      && (forall s: nat | s < a.nState :: StoresShift(a, s) && StoresGoto(a, s))
      && (forall s: nat, x: nat | s < a.nState && x < a.g.nTerminal :: OwnRow(a, s, x))
      && (forall s: nat | s < a.nState :: OffsetBounded(s))
    }

    /** The slot was put there by some state's row. */
    ghost predicate Owns(a: Automaton, i: nat, o: nat)
      requires i < |lookahead|
    {
      o < |a.shift| == |shiftOfst| && shiftOfst[o] + lookahead[i] == i && lookahead[i] in a.shift[o]
    }

    ghost predicate ReachedIsOwned(a: Automaton, s: nat, x: nat)
      requires s < |a.shift| == |shiftOfst|
    {
      Hit(shiftOfst[s], x) ==> var i: nat := shiftOfst[s] + x; exists o: nat :: Owns(a, i, o)
    }

    ghost predicate SharedRows(a: Automaton, s: nat, o: nat)
      requires s < |a.shift| == |shiftOfst| && o < |a.shift|
    {
      shiftOfst[s] == shiftOfst[o] ==> a.shift[s] == a.shift[o]
    }

    /** The bounds are bounds, and the sentinel offset occurs only if the upper check is compiled in. */
    predicate OffsetBounded(s: nat)
      requires s < |shiftOfst|
    {
      && shiftMin <= shiftOfst[s]
      && (shiftOfst[s] <= shiftMax || shiftOfst[s] == |action|)
    }

    predicate ChecksLow(wildcard: nat) { shiftMin + wildcard < 0 }

    predicate ChecksHigh(wildcard: nat) { shiftMax + wildcard >= |action| }

    /** The guards the compiler keeps suffice when nothing uses the sentinel unchecked. */
    ghost predicate GuardsSuffice(a: Automaton)
      requires |shiftOfst| == a.nState
    {
      forall s: nat | s < a.nState :: shiftOfst[s] == |action| > shiftMax ==> ChecksHigh(a.g.wildcard)
    }
  }

  /** Looking only at the lookahead tag, never at the state, still finds exactly the state's own row. */
  lemma HitIsOwnRow(p: Packed, a: Automaton, s: nat, x: nat)
    requires p.Packs(a) && s < a.nState && x < a.g.nTerminal
    ensures p.Hit(p.shiftOfst[s], x) <==> x in a.shift[s]
    ensures x in a.shift[s] ==> p.action[p.shiftOfst[s] + x] == a.shift[s][x]
  {
    assert p.StoresShift(a, s) && p.OwnRow(a, s, x);
  }

  /** States that share an offset share a row: each stores its actions where the other looks. */
  lemma SharedOffsetSharedRow(p: Packed, a: Automaton, s: nat, o: nat)
    requires p.Packs(a) && s < a.nState && o < a.nState && p.shiftOfst[s] == p.shiftOfst[o]
    ensures a.shift[s] == a.shift[o]
  {
    assert p.StoresShift(a, s) && p.StoresShift(a, o);
    forall x | x in a.shift[s] || x in a.shift[o]
      ensures x in a.shift[s] && x in a.shift[o] && a.shift[s][x] == a.shift[o][x]
    {
      HitIsOwnRow(p, a, s, x);
      HitIsOwnRow(p, a, o, x);
    }
  }

  /** Different rows cannot confuse a slot: two states that read one slot look for one symbol, at one offset, in one
      and the same row. */
  lemma NoConfusion(p: Packed, a: Automaton, s: nat, x: nat, s': nat, x': nat)
    requires p.Packs(a) && s < a.nState && s' < a.nState && x < a.g.nTerminal && x' < a.g.nTerminal
    requires p.Hit(p.shiftOfst[s], x) && p.Hit(p.shiftOfst[s'], x') && p.shiftOfst[s] + x == p.shiftOfst[s'] + x'
    ensures x == x' && p.shiftOfst[s] == p.shiftOfst[s'] && a.shift[s] == a.shift[s']
  {
    SharedOffsetSharedRow(p, a, s, s');
  }

  /** The condition on packings, taken apart: no state reaches a foreign slot if and only if every slot reached was
      put there by some row and states that share an offset share a row. */
  lemma OwnRowsExactly(p: Packed, a: Automaton)
    requires a.Sized() && |p.shiftOfst| == a.nState
    requires forall s: nat | s < a.nState :: p.StoresShift(a, s)
    ensures (forall s: nat, x: nat | s < a.nState && x < a.g.nTerminal :: p.OwnRow(a, s, x)) <==>
            && (forall s: nat, x: nat | s < a.nState && x < a.g.nTerminal :: p.ReachedIsOwned(a, s, x))
            && (forall s: nat, o: nat | s < a.nState && o < a.nState :: p.SharedRows(a, s, o))
  {
    if forall s: nat, x: nat | s < a.nState && x < a.g.nTerminal :: p.OwnRow(a, s, x) {
      forall s: nat, x: nat | s < a.nState && x < a.g.nTerminal
        ensures p.ReachedIsOwned(a, s, x)
      {
        assert p.OwnRow(a, s, x);
        if p.Hit(p.shiftOfst[s], x) {
          assert p.Owns(a, p.shiftOfst[s] + x, s);
        }
      }
      forall s: nat, o: nat | s < a.nState && o < a.nState
        ensures p.SharedRows(a, s, o)
      {
        assert p.StoresShift(a, s) && p.StoresShift(a, o);
        assert forall x | x in a.shift[s] || x in a.shift[o] :: p.OwnRow(a, s, x) && p.OwnRow(a, o, x);
      }
    }
    if && (forall s: nat, x: nat | s < a.nState && x < a.g.nTerminal :: p.ReachedIsOwned(a, s, x))
       && (forall s: nat, o: nat | s < a.nState && o < a.nState :: p.SharedRows(a, s, o))
    {
      forall s: nat, x: nat | s < a.nState && x < a.g.nTerminal
        ensures p.OwnRow(a, s, x)
      {
        assert p.ReachedIsOwned(a, s, x);
        if p.Hit(p.shiftOfst[s], x) {
          var o: nat :| p.Owns(a, p.shiftOfst[s] + x, o);
          assert p.SharedRows(a, s, o);
        }
      }
    }
  }

  /** The token lookup.  `rounds` counts the turns of the fallback loop. */
  method FindShiftAction(p: Packed, g: Grammar, minReduce: nat, stateno: nat, iLookAhead: nat, ghost a: Automaton)
    returns (act: nat, ghost rounds: nat)
    requires p.Packs(a) && p.GuardsSuffice(a) && g == a.g && minReduce == a.MinReduce()
    requires a.IsStateno(stateno) && iLookAhead < g.nTerminal
    ensures act == a.FindShift(stateno, iLookAhead)
    ensures a.MinReduce() <= stateno ==> act == stateno
    ensures stateno < a.nState ==>
              var row, back := a.shift[stateno], g.Fallback(iLookAhead);
              act == if iLookAhead in row then row[iLookAhead]
                     else if back != 0 && back in row then row[back]
                     else if iLookAhead != 0 && g.wildcard in row then row[g.wildcard]
                     else a.dflt[stateno]
    ensures rounds <= 2
  {
    if stateno < a.nState {
      ActionIsFirst(a, stateno, iLookAhead);
    }
    rounds := 0;
    if stateno >= minReduce {
      return stateno, 0;
    }
    assert stateno < |p.shiftOfst|;
    var look := iLookAhead;
    while true
      invariant look < g.nTerminal && rounds <= 1
      invariant rounds == 0 ==> look == iLookAhead
      invariant rounds == 1 ==> iLookAhead !in a.shift[stateno] && look == g.Fallback(iLookAhead) != 0
      decreases 1 - rounds
    {
      HitIsOwnRow(p, a, stateno, look);
      assert iLookAhead < |g.fallback| ==> g.FallbackEnds(iLookAhead);
      rounds := rounds + 1;
      var i := p.shiftOfst[stateno] + look;
      if i < 0 || i >= |p.action| || p.lookahead[i] != look {
        if look < |g.fallback| && g.fallback[look] != 0 {
          assert g.Fallback(g.fallback[look]) == 0;
          look := g.fallback[look];
          continue;
        }
        HitIsOwnRow(p, a, stateno, g.wildcard);
        assert p.OffsetBounded(stateno);
        var j := i - look + g.wildcard;
        if (!p.ChecksLow(g.wildcard) || j >= 0)
           && (!p.ChecksHigh(g.wildcard) || j < |p.action|)
           && p.lookahead[j] == g.wildcard && look > 0
        {
          return p.action[j], rounds;
        }
        return p.dflt[stateno], rounds;
      } else {
        return p.action[i], rounds;
      }
    }
  }

  /** The goto lookup.  The engine's assertions are the checks of this body. */
  method FindReduceAction(p: Packed, stateno: nat, iLookAhead: nat, ghost a: Automaton) returns (act: nat)
    requires p.Packs(a) && stateno < a.nState && iLookAhead in a.goto[stateno]
    ensures act == a.goto[stateno][iLookAhead]
  {
    assert p.StoresGoto(a, stateno);
    assert stateno < |p.reduceOfst|;
    var i := p.reduceOfst[stateno];
    assert i != p.reduceUseDflt;
    i := i + iLookAhead;
    assert 0 <= i < |p.action|;
    assert p.lookahead[i] == iLookAhead;
    act := p.action[i];
  }
}
