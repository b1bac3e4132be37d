/** Foreign-key actions: the clauses after REFERENCES folded into one word, a byte per kind of action. */
module FkActions {

  /** What a clause may ask for. */
  datatype Action = NoAction | Restrict | SetNull | SetDefault | Cascade

  const OE_NONE: bv32 := 0
  const OE_RESTRICT: bv32 := 6
  const OE_SETNULL: bv32 := 7
  const OE_SETDFLT: bv32 := 8
  const OE_CASCADE: bv32 := 9

  function OeOf(a: Action): bv32 {
    match a
    case NoAction => OE_NONE
    case Restrict => OE_RESTRICT
    case SetNull => OE_SETNULL
    case SetDefault => OE_SETDFLT
    case Cascade => OE_CASCADE
  }

  /** How a stored byte is named when the keys of a table are listed. */
  function ActionOf(byte: bv32): Action {
    if byte == 6 then Restrict
    else if byte == 7 then SetNull
    else if byte == 8 then SetDefault
    else if byte == 9 then Cascade
    else NoAction
  }

  predicate IsByte(a: bv32) {
    a & !0xff == 0
  }

  datatype Clause = MatchName | OnInsert(action: Action) | OnDelete(action: Action) | OnUpdate(action: Action)

  /** Every action fits in a byte, and is recovered from it. */
  lemma ActionsAreBytes(a: Action)
    ensures IsByte(OeOf(a)) && ActionOf(OeOf(a)) == a
    ensures OeOf(a) == 0 <==> a == NoAction
  {
    match a
    case NoAction => assert OeOf(a) == 0;
    case Restrict => assert OeOf(a) == 6;
    case SetNull => assert OeOf(a) == 7;
    case SetDefault => assert OeOf(a) == 8;
    case Cascade => assert OeOf(a) == 9;
  }

  /** A clause as the parser passes it on: the bits it sets, and the bits it first clears. */
  datatype Change = Change(value: bv32, mask: bv32)

  function ChangeOf(c: Clause): Change {
    match c
    case MatchName => Change(0, 0x000000)
    case OnInsert(_) => Change(0, 0x000000)
    case OnDelete(a) => Change(OeOf(a), 0x0000ff)
    case OnUpdate(a) => Change(OeOf(a) << 8, 0x00ff00)
  }

  function Merge(flags: bv32, value: bv32, mask: bv32): bv32 {
    (flags & !mask) | value
  }

  function Apply(flags: bv32, c: Clause): bv32 {
    Merge(flags, ChangeOf(c).value, ChangeOf(c).mask)
  }

  // --- What the text asks for ---

  function Deletes(cs: seq<Clause>): seq<Action> {
    if cs == [] then []
    else Deletes(cs[..|cs| - 1]) + if cs[|cs| - 1].OnDelete? then [cs[|cs| - 1].action] else []
  }

  function Updates(cs: seq<Clause>): seq<Action> {
    if cs == [] then []
    else Updates(cs[..|cs| - 1]) + if cs[|cs| - 1].OnUpdate? then [cs[|cs| - 1].action] else []
  }

  /** The last action asked for, or none where no clause asks. */
  function Last(actions: seq<Action>): Action {
    if actions == [] then NoAction else actions[|actions| - 1]
  }

  function Word(onDelete: bv32, onUpdate: bv32): bv32 {
    onDelete | (onUpdate << 8)
  }

  /** The word the clauses stand for: the last ON DELETE action in the low byte, the last ON UPDATE action in the
      next, no action where there is no clause, and no other bit set. */
  function Wanted(cs: seq<Clause>): bv32 {
    Word(OeOf(Last(Deletes(cs))), OeOf(Last(Updates(cs))))
  }

  // --- The fold ---

  lemma SetLow(d: bv32, u: bv32, a: bv32)
    requires IsByte(d) && IsByte(u) && IsByte(a)
    ensures Merge(Word(d, u), a, 0x0000ff) == Word(a, u)
  {
  }

  lemma SetNext(d: bv32, u: bv32, a: bv32)
    requires IsByte(d) && IsByte(u) && IsByte(a)
    ensures Merge(Word(d, u), a << 8, 0x00ff00) == Word(d, a)
  {
  }

  lemma SetNothing(flags: bv32)
    ensures Merge(flags, 0, 0) == flags
  {
  }

  lemma ApplyWord(d: Action, u: Action, c: Clause)
    ensures Apply(Word(OeOf(d), OeOf(u)), c) ==
            Word(OeOf(if c.OnDelete? then c.action else d), OeOf(if c.OnUpdate? then c.action else u))
  {
    hide IsByte, Merge, Word, OeOf;
    ActionsAreBytes(d);
    ActionsAreBytes(u);
    match c
    case OnDelete(a) =>
      ActionsAreBytes(a);
      SetLow(OeOf(d), OeOf(u), OeOf(a));
    case OnUpdate(a) =>
      ActionsAreBytes(a);
      SetNext(OeOf(d), OeOf(u), OeOf(a));
    case _ => SetNothing(Word(OeOf(d), OeOf(u)));
  }

  lemma GetByte(d: bv32, u: bv32)
    requires IsByte(d) && IsByte(u)
    ensures Word(d, u) & 0xff == d && (Word(d, u) >> 8) & 0xff == u
  {
  }

  /** One more clause changes the word as it should. */
  lemma ApplyIsWanted(cs: seq<Clause>, c: Clause)
    ensures Apply(Wanted(cs), c) == Wanted(cs + [c])
  {
    hide Apply, Word, OeOf;
    ApplyWord(Last(Deletes(cs)), Last(Updates(cs)), c);
    OneMoreClause(cs, c);
    hide Deletes, Updates;
  }

  lemma OneMoreClause(cs: seq<Clause>, c: Clause)
    ensures Deletes(cs + [c]) == Deletes(cs) + if c.OnDelete? then [c.action] else []
    ensures Updates(cs + [c]) == Updates(cs) + if c.OnUpdate? then [c.action] else []
  {
    assert (cs + [c])[..|cs|] == cs;
  }

  lemma NothingIsZero()
    ensures Wanted([]) == 0
  {
  }

  /** `refargs`: clauses reduced one at a time. */
  method RefArgs(cs: seq<Clause>) returns (flags: bv32)
    ensures flags == Wanted(cs)
    ensures cs == [] ==> flags == 0
  {
    NothingIsZero();
    flags := OE_NONE * 0x0101;
    for i := 0 to |cs|
      invariant flags == Wanted(cs[..i])
    {
      assert cs[..i] + [cs[i]] == cs[..i + 1];
      ApplyIsWanted(cs[..i], cs[i]);
      hide Wanted;
      flags := Apply(flags, cs[i]);
    }
    assert cs[..|cs|] == cs;
  }

  /** The two bytes stored in the foreign key, read back: the last action of each kind, none where none was asked for. */
  method ForeignKeyActions(cs: seq<Clause>) returns (onDelete: bv32, onUpdate: bv32)
    ensures IsByte(onDelete) && ActionOf(onDelete) == Last(Deletes(cs))
    ensures IsByte(onUpdate) && ActionOf(onUpdate) == Last(Updates(cs))
    ensures Deletes(cs) == [] ==> onDelete == 0
    ensures Updates(cs) == [] ==> onUpdate == 0
  {
    hide OeOf, ActionOf, IsByte, Word;
    var flags := RefArgs(cs);
    ActionsAreBytes(Last(Deletes(cs)));
    ActionsAreBytes(Last(Updates(cs)));
    GetByte(OeOf(Last(Deletes(cs))), OeOf(Last(Updates(cs))));
    onDelete := flags & 0xff;
    onUpdate := (flags >> 8) & 0xff;
  }

  lemma {:induction false} OfKindConcat(a: seq<Clause>, b: seq<Clause>)
    ensures Deletes(a + b) == Deletes(a) + Deletes(b)
    ensures Updates(a + b) == Updates(a) + Updates(b)
  {
    if b == [] {
      assert a + b == a;
    } else {
      OfKindConcat(a, b[..|b| - 1]);
      assert (a + b)[..|a + b| - 1] == a + b[..|b| - 1];
    }
  }

  /** Clauses of different kinds may change places anywhere: their interleaving makes no difference. */
  lemma KindsCommute(a: seq<Clause>, c: Clause, d: Clause, b: seq<Clause>)
    requires !(c.OnDelete? && d.OnDelete?) && !(c.OnUpdate? && d.OnUpdate?)
    ensures Wanted(a + [c, d] + b) == Wanted(a + [d, c] + b)
  {
    OfKindConcat(a + [c, d], b);
    OfKindConcat(a + [d, c], b);
    OfKindConcat(a, [c, d]);
    OfKindConcat(a, [d, c]);
    assert [c, d][..1] == [c] && [d, c][..1] == [d] && [c][..0] == [] && [d][..0] == [];
    assert Deletes([c, d]) == Deletes([d, c]) && Updates([c, d]) == Updates([d, c]);
  }
}
