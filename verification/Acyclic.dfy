/** What a ranking certifies, in terms of derivations alone: no symbol derives itself. */
module Acyclic {
  import opened Grammars
  import opened Termination

  /** `u` derives `v` in exactly `n` rewriting steps. */
  ghost predicate DerivesIn(g: Grammar, u: seq<nat>, v: seq<nat>, n: nat)
    decreases n
  {
    if n == 0 then u == v else exists mid :: Rewrites(g, u, mid) && DerivesIn(g, mid, v, n - 1)
  }

  lemma {:induction false} FormsAreSteps(g: Grammar, u: seq<nat>, v: seq<nat>, forms: seq<seq<nat>>)
    requires DerivesBy(g, u, v, forms)
    ensures DerivesIn(g, u, v, |forms| - 1)
    decreases |forms|
  {
    if |forms| > 1 {
      assert Rewrites(g, forms[0], forms[1]);
      var rest := forms[1..];
      forall k | 0 <= k < |rest| - 1
        ensures Rewrites(g, rest[k], rest[k + 1])
      {
        assert Rewrites(g, forms[k + 1], forms[k + 1 + 1]);
      }
      FormsAreSteps(g, forms[1], v, rest);
    }
  }

  /** A step rewrites within one of two adjacent parts. */
  lemma StepSplits(g: Grammar, u1: seq<nat>, u2: seq<nat>, v: seq<nat>) returns (left: bool, v1: seq<nat>, v2: seq<nat>)
    requires Rewrites(g, u1 + u2, v)
    ensures v == v1 + v2
    ensures if left then Rewrites(g, u1, v1) && v2 == u2 else v1 == u1 && Rewrites(g, u2, v2)
  {
    var i: nat, r: nat, w: seq<nat> :| RewritesAt(g, u1 + u2, v, i, r, w);
    left := i < |u1|;
    if left {
      v1, v2 := u1[..i] + w + u1[i + 1..], u2;
      assert (u1 + u2)[..i] == u1[..i] && (u1 + u2)[i + 1..] == u1[i + 1..] + u2;
      assert RewritesAt(g, u1, v1, i, r, w);
    } else {
      var j := i - |u1|;
      v1, v2 := u1, u2[..j] + w + u2[j + 1..];
      assert (u1 + u2)[..i] == u1 + u2[..j] && (u1 + u2)[i + 1..] == u2[j + 1..];
      assert RewritesAt(g, u2, v2, j, r, w);
    }
  }

  lemma StepBefore(g: Grammar, u: seq<nat>, mid: seq<nat>, v: seq<nat>, n: nat)
    requires Rewrites(g, u, mid) && DerivesIn(g, mid, v, n)
    ensures DerivesIn(g, u, v, n + 1)
  {
    hide Rewrites;
  }

  lemma StepAfter(g: Grammar, u: seq<nat>, v: seq<nat>, n: nat) returns (mid: seq<nat>)
    requires DerivesIn(g, u, v, n) && n > 0
    ensures Rewrites(g, u, mid) && DerivesIn(g, mid, v, n - 1)
  {
    hide Rewrites;
    mid :| Rewrites(g, u, mid) && DerivesIn(g, mid, v, n - 1);
  }

  lemma NoStep(g: Grammar, u: seq<nat>, v: seq<nat>)
    ensures DerivesIn(g, u, v, 0) <==> u == v
  {
  }

  /** Adjacent parts derive adjacent parts. */
  lemma {:induction false} DerivationSplits(g: Grammar, u1: seq<nat>, u2: seq<nat>, v: seq<nat>, n: nat)
    returns (v1: seq<nat>, v2: seq<nat>, n1: nat, n2: nat)
    requires DerivesIn(g, u1 + u2, v, n)
    ensures v == v1 + v2 && n1 + n2 == n && DerivesIn(g, u1, v1, n1) && DerivesIn(g, u2, v2, n2)
    decreases n
  {
    hide Rewrites, DerivesIn;
    if n == 0 {
      NoStep(g, u1, u1);
      NoStep(g, u2, u2);
      NoStep(g, u1 + u2, v);
      v1, v2, n1, n2 := u1, u2, 0, 0;
    } else {
      var mid := StepAfter(g, u1 + u2, v, n);
      var left, m1, m2 := StepSplits(g, u1, u2, mid);
      v1, v2, n1, n2 := DerivationSplits(g, m1, m2, v, n - 1);
      if left {
        StepBefore(g, u1, m1, v1, n1);
        n1 := n1 + 1;
      } else {
        StepBefore(g, u2, m2, v2, n2);
        n2 := n2 + 1;
      }
    }
  }

  /** The first step from one symbol is one of its rules. */
  lemma FirstStep(g: Grammar, x: nat, mid: seq<nat>) returns (r: nat)
    requires Rewrites(g, [x], mid)
    ensures r < |g.rules| && g.rules[r].lhs == x && |mid| == |g.rules[r].rhs|
    ensures forall j | 0 <= j < |mid| :: mid[j] in g.rules[r].rhs[j] && g.Matches(mid[j], g.rules[r].rhs[j])
  {
    var i: nat, r': nat, w: seq<nat> :| RewritesAt(g, [x], mid, i, r', w);
    r := r';
    assert mid == w;
    forall j | 0 <= j < |mid|
      ensures g.Matches(mid[j], g.rules[r].rhs[j])
    {
      assert g.Fits(mid[j], mid[j]);
    }
  }

  /** A symbol that derives the empty string is nullable... */
  lemma {:induction false} VanishingIsNullable(k: Ranking, g: Grammar, x: nat, n: nat)
    requires k.Certifies(g) && DerivesIn(g, [x], [], n)
    ensures x in k.nullable
    decreases n, 0
  {
    var mid :| Rewrites(g, [x], mid) && DerivesIn(g, mid, [], n - 1);
    var r := FirstStep(g, x, mid);
    AllAreNullable(k, g, mid, n - 1);
    assert k.NullableOk(g, r);
  }

  /** ...and so is every symbol of a word that does. */
  lemma {:induction false} AllAreNullable(k: Ranking, g: Grammar, w: seq<nat>, n: nat)
    requires k.Certifies(g) && DerivesIn(g, w, [], n)
    ensures forall j | 0 <= j < |w| :: w[j] in k.nullable
    decreases n, |w|
  {
    if w != [] {
      assert w == [w[0]] + w[1..];
      var v1, v2, n1, n2 := DerivationSplits(g, [w[0]], w[1..], [], n);
      VanishingIsNullable(k, g, w[0], n1);
      AllAreNullable(k, g, w[1..], n2);
    }
  }

  /** When a word derives a single symbol, one of its symbols does and the others vanish. */
  lemma {:induction false} OneSurvives(k: Ranking, g: Grammar, w: seq<nat>, b: nat, n: nat) returns (i: nat, m: nat)
    requires k.Certifies(g) && DerivesIn(g, w, [b], n)
    ensures i < |w| && m <= n && DerivesIn(g, [w[i]], [b], m)
    ensures forall j | 0 <= j < |w| && j != i :: w[j] in k.nullable
    decreases |w|
  {
    if w == [] {
      EmptyStaysEmpty(g, [b], n);
      assert false;
    } else {
      assert w == [w[0]] + w[1..];
      var v1, v2, n1, n2 := DerivationSplits(g, [w[0]], w[1..], [b], n);
      if v1 == [] {
        assert v2 == [b];
        VanishingIsNullable(k, g, w[0], n1);
        var i', m' := OneSurvives(k, g, w[1..], b, n2);
        i, m := i' + 1, m';
      } else {
        assert |v1| + |v2| == 1;
        assert v1 == v1 + v2 == [b] && v2 == [];
        AllAreNullable(k, g, w[1..], n2);
        i, m := 0, n1;
      }
    }
  }

  lemma EmptyStaysEmpty(g: Grammar, v: seq<nat>, n: nat)
    requires DerivesIn(g, [], v, n)
    ensures v == []
  {
  }

  /** Ranks fall along every derivation from one symbol to another. */
  lemma {:induction false} RankFalls(k: Ranking, g: Grammar, x: nat, b: nat, n: nat)
    requires k.Certifies(g) && DerivesIn(g, [x], [b], n) && n > 0
    ensures k.Of(g, b) < k.Of(g, x)
    decreases n
  {
    var mid :| Rewrites(g, [x], mid) && DerivesIn(g, mid, [b], n - 1);
    var r := FirstStep(g, x, mid);
    var i, m := OneSurvives(k, g, mid, b, n - 1);
    forall j | 0 <= j < |mid| && j != i
      ensures k.Vanishing(g, g.rules[r].rhs[j])
    {
    }
    assert k.RankOk(g, r, i, mid[i]);
    if m > 0 {
      RankFalls(k, g, mid[i], b, m);
    }
  }

  /** A certified grammar is acyclic: no symbol derives itself in one step or more. */
  lemma CertifiedIsAcyclic(k: Ranking, g: Grammar, x: nat, forms: seq<seq<nat>>)
    requires k.Certifies(g) && |forms| > 1
    ensures !DerivesBy(g, [x], [x], forms)
  {
    if DerivesBy(g, [x], [x], forms) {
      FormsAreSteps(g, [x], [x], forms);
      RankFalls(k, g, x, x, |forms| - 1);
    }
  }
}
