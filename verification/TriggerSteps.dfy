/** The commands of a trigger body: a singly linked queue whose first element remembers the last, so that a
    command is appended in constant time. */
module TriggerSteps {

  class TriggerStep {
    /** Stands for the command itself. */
    const cmd: nat
    var pTrig: nat
    var pNext: TriggerStep?
    /** Kept up to date in the first step only. */
    var pLast: TriggerStep?

    constructor (cmd: nat)
      ensures this.cmd == cmd && pNext == null && pLast == null
    {
      this.cmd, pTrig, pNext, pLast := cmd, 0, null, null;
    }
  }

  ghost function Nodes(s: seq<TriggerStep>): set<TriggerStep> {
    set x | x in s
  }

  ghost predicate NextAt(s: seq<TriggerStep>, i: nat)
    requires i < |s|
    reads s[i]
  {
    s[i].pNext == if i + 1 < |s| then s[i + 1] else null
  }

  /** From `head` the steps `s` follow one another along `pNext`, each once, and the list ends. */
  ghost predicate Linked(head: TriggerStep, s: seq<TriggerStep>)
    reads s
  {
    && s != [] && s[0] == head
    && (forall i: nat | i < |s| :: NextAt(s, i))
    && (forall i: nat, j: nat | i < j < |s| :: s[i] != s[j])
  }

  ghost predicate Queue(head: TriggerStep, s: seq<TriggerStep>)
    reads s
  {
    Linked(head, s) && head.pLast == s[|s| - 1]
  }

  ghost function Commands(s: seq<TriggerStep>): (cs: seq<nat>)
    ensures |cs| == |s|
  {
    seq(|s|, i requires 0 <= i < |s| => s[i].cmd)
  }

  /** A list of one command. */
  method First(step: TriggerStep)
    requires step.pNext == null
    modifies step`pLast
    ensures Queue(step, [step])
  {
    step.pLast := step;
    assert NextAt([step], 0);
  }

  /** One more command: only the old last step and the head change, whatever the length. */
  method Append(head: TriggerStep, step: TriggerStep, ghost s: seq<TriggerStep>)
    requires Queue(head, s) && step !in s && step.pNext == null
    modifies head`pLast, head.pLast`pNext
    ensures Queue(head, s + [step])
  {
    ghost var t := s + [step];
    assert forall i: nat | i < |s| :: NextAt(s, i);
    assert old(s[|s| - 1].pNext) == null by { assert NextAt(s, |s| - 1); }
    head.pLast.pNext := step;
    head.pLast := step;
    forall i: nat | i < |t|
      ensures NextAt(t, i)
    {
      if i < |s| - 1 {
        assert old(NextAt(s, i));
      }
    }
  }

  /** The body of a trigger, command by command. */
  method CommandList(cmds: seq<nat>) returns (head: TriggerStep, ghost s: seq<TriggerStep>)
    requires cmds != []
    ensures Queue(head, s) && Commands(s) == cmds && fresh(s)
  {
    head := new TriggerStep(cmds[0]);
    First(head);
    s := [head];
    for i := 1 to |cmds|
      invariant Queue(head, s) && fresh(s)
      invariant Commands(s) == cmds[..i]
    {
      var step := new TriggerStep(cmds[i]);
      Append(head, step, s);
      s := s + [step];
    }
  }

  /** Walking a linked list from its head meets every step once, in order, and comes to an end. */
  method Finish(pStepList: TriggerStep, pTrig: nat, ghost s: seq<TriggerStep>) returns (cmds: seq<nat>)
    requires Linked(pStepList, s)
    modifies Nodes(s)`pTrig
    ensures cmds == Commands(s)
    ensures forall i: nat | i < |s| :: s[i].pTrig == pTrig
  {
    var p: TriggerStep? := pStepList;
    cmds := [];
    ghost var k: nat := 0;
    while p != null
      invariant k <= |s| && p == (if k < |s| then s[k] else null)
      invariant forall i: nat | i < |s| :: NextAt(s, i)
      invariant cmds == Commands(s)[..k]
      invariant forall i: nat | i < k :: s[i].pTrig == pTrig
      decreases |s| - k
    {
      assert NextAt(s, k);
      label before:
      p.pTrig := pTrig;
      forall i: nat | i < |s| ensures NextAt(s, i) { assert old@before(NextAt(s, i)); }
      cmds := cmds + [p.cmd];
      p := p.pNext;
      k := k + 1;
    }
  }

  /** A trigger body comes back in source order. */
  method BodyRoundTrip(cmds: seq<nat>, pTrig: nat) returns (r: seq<nat>)
    requires cmds != []
    ensures r == cmds
  {
    var head, s := CommandList(cmds);
    r := Finish(head, pTrig, s);
  }

  /** A linked list has one reading: from the same head, any two agree. */
  lemma {:induction false} ReadingIsUnique(head: TriggerStep, s: seq<TriggerStep>, t: seq<TriggerStep>, k: nat)
    requires Linked(head, s) && Linked(head, t) && k < |s|
    ensures k < |t| && s[k] == t[k]
    ensures |s| == |t| || k < |s| - 1
    decreases k
  {
    if k > 0 {
      ReadingIsUnique(head, s, t, k - 1);
      assert NextAt(s, k - 1) && NextAt(t, k - 1);
    }
    assert NextAt(s, k) && NextAt(t, k);
  }
}
