/** The keyword recogniser: a chained hash over keywords that overlap in one text pool, and why it
    agrees with a plain search of the keyword list. */
module KeywordHash {

  type byte = bv8

  const DEL: byte := 0x7F
  const UNDERSCORE: byte := 0x5F
  const HASH_SIZE := 127

  predicate IsCapital(b: byte) { 0x41 <= b <= 0x5A }

  /** The case-folding table of the tokenizer. */
  function CharMap(b: byte): byte {
    if IsCapital(b) then b + 0x20 else b
  }

  /** Clearing bit 5: what the comparison does to a character of the word. */
  function Mask(b: byte): byte { b & 0xDF }

  function Upper(b: byte): byte {
    if 0x61 <= b <= 0x7A then b - 0x20 else b
  }

  /** The exclusive or that is reduced to a bucket, in the 32 bits of an `int`. */
  function Mix(first: byte, last: byte, n: bv32): bv32 {
    ((first as bv32) * 4) ^ ((last as bv32) * 3) ^ n
  }

  /** The hash of a word, from its folded first and last characters and its length. */
  function Bucket(first: byte, last: byte, n: nat): (h: nat)
    requires n < 0x8000_0000
    ensures h < HASH_SIZE
  {
    (Mix(first, last, n as bv32) as nat) % HASH_SIZE
  }

  function BucketOf(z: seq<byte>): nat
    requires 0 < |z| < 0x8000_0000
  {
    Bucket(CharMap(z[0]), CharMap(z[|z| - 1]), |z|)
  }

  /** The character comparison of the inner loop, over a whole word. */
  predicate Same(z: seq<byte>, w: seq<byte>) {
    |z| == |w| && forall j | 0 <= j < |z| :: Mask(z[j]) == w[j]
  }

  /** Words the pool may spell: upper-case letters and inner underscores. */
  predicate IsWord(w: seq<byte>) {
    && 2 <= |w| < 0x8000_0000
    && (forall j | 0 <= j < |w| :: IsCapital(w[j]) || w[j] == UNDERSCORE)
    && IsCapital(w[0]) && IsCapital(w[|w| - 1])
  }

  datatype Tables = Tables(
    text: seq<byte>,
    hash: seq<nat>,
    next: seq<nat>,
    len: seq<nat>,
    offset: seq<nat>,
    code: seq<nat>)
  {
    function Count(): nat { |len| }

    predicate Sized() {
      |hash| == HASH_SIZE && |next| == |len| == |offset| == |code|
    }

    predicate Stored(k: nat)
      requires Sized() && k < Count()
    {
      offset[k] + len[k] <= |text|
    }

    function Word(k: nat): seq<byte>
      requires Sized() && k < Count() && Stored(k)
    {
      text[offset[k]..offset[k] + len[k]]
    }

    /** Index `k` lies on the chain that starts at `i`; links only go down. */
    predicate OnChain(i: int, k: nat)
      requires Sized() && i < Count()
      decreases if i < 0 then 0 else i + 1
    {
      k <= i && (k == i || (-1 < Link(i) < i && OnChain(Link(i), k)))
    }

    /** The next index on the chain after `i`, or -1. */
    function Link(i: nat): (j: int)
      requires Sized() && i < Count()
    {
      var link: int := next[i];
      link - 1
    }

    predicate EntryOk(k: nat)
      requires Sized() && k < Count()
    {
      && Stored(k) && next[k] <= k && IsWord(Word(k))
      && var head: int := hash[BucketOf(Word(k))]; head <= Count() && OnChain(head - 1, k)
    }

    predicate Valid() {
      && Sized()
      && (forall h: nat | h < HASH_SIZE :: hash[h] <= Count())
      && forall k: nat | k < Count() :: EntryOk(k)
    }

    /** The plain search, from the last keyword to the first; -1 when there is none. */
    function Search(z: seq<byte>, k: nat): (r: int)
      requires Valid() && k <= Count()
      ensures -1 <= r < k
    {
      if k == 0 then -1
      else if EntryOk(k - 1) && Same(z, Word(k - 1)) then k - 1
      else Search(z, k - 1)
    }
  }

  lemma {:induction false} SearchFindsLast(t: Tables, z: seq<byte>, k: nat)
    requires t.Valid() && k <= t.Count()
    ensures var r := t.Search(z, k);
            && (r >= 0 ==> t.EntryOk(r) && Same(z, t.Word(r)))
            && forall m: nat | r < m < k :: t.EntryOk(m) && !Same(z, t.Word(m))
  {
    hide Bucket, IsWord, Same, BucketOf, Tables.OnChain;
    if k > 0 {
      assert t.EntryOk(k - 1);
      SearchFindsLast(t, z, k - 1);
    }
  }

  /** A word that passes the character comparison is in the keyword's own bucket: the mask and the
      case folding forget the same thing about letters. */
  lemma SameWordSameBucket(z: seq<byte>, w: seq<byte>)
    requires Same(z, w) && IsWord(w)
    ensures BucketOf(z) == BucketOf(w)
  {
    hide Bucket;
    assert Mask(z[0]) == w[0] && Mask(z[|z| - 1]) == w[|w| - 1];
  }

  /** The bucket does not depend on letter case. */
  lemma BucketIgnoresCase(z: seq<byte>, y: seq<byte>)
    requires 0 < |z| == |y| < 0x8000_0000
    requires forall j | 0 <= j < |z| :: Upper(z[j]) == Upper(y[j])
    ensures BucketOf(z) == BucketOf(y)
  {
    hide Bucket;
    assert Upper(z[0]) == Upper(y[0]) && Upper(z[|z| - 1]) == Upper(y[|y| - 1]);
  }

  /** The comparison is equality up to case, exactly except that DEL passes for an underscore. */
  lemma SameIsFoldedEquality(z: seq<byte>, w: seq<byte>)
    requires IsWord(w) && |z| == |w|
    ensures Same(z, w) <==> forall j | 0 <= j < |z| :: Upper(z[j]) == w[j] || (z[j] == DEL && w[j] == UNDERSCORE)
  {
    forall j | 0 <= j < |z|
      ensures Mask(z[j]) == w[j] <==> Upper(z[j]) == w[j] || (z[j] == DEL && w[j] == UNDERSCORE)
    {
    }
  }

  // --- Keywords are distinct when they differ along each chain ---

  ghost predicate DiffersBelow(t: Tables, j: nat, k: nat)
    requires t.Valid() && k < j < t.Count()
  {
    t.EntryOk(j) && t.EntryOk(k) && (t.OnChain(j, k) ==> t.Word(j) != t.Word(k))
  }

  ghost predicate ChainsDiffer(t: Tables)
    requires t.Valid()
  {
    forall j: nat, k: nat | k < j < t.Count() :: DiffersBelow(t, j, k)
  }

  lemma {:induction false} ChainOrder(t: Tables, i: int, j: nat, k: nat)
    requires t.Sized() && i < t.Count() && t.OnChain(i, j) && t.OnChain(i, k) && k <= j
    ensures t.OnChain(j, k)
    decreases i
  {
    if j != i {
      ChainOrder(t, t.Link(i), j, k);
    }
  }

  /** Equal keywords would share a chain, so no two keywords are equal. */
  lemma WordsAreUnique(t: Tables, j: nat, k: nat)
    requires t.Valid() && ChainsDiffer(t) && j < t.Count() && k < t.Count() && j != k
    ensures t.EntryOk(j) && t.EntryOk(k) && t.Word(j) != t.Word(k)
  {
    hide Bucket;
    assert t.EntryOk(j) && t.EntryOk(k);
    var a, b := if k < j then j else k, if k < j then k else j;
    assert DiffersBelow(t, a, b);
    if t.Word(j) == t.Word(k) {
      var head: int := t.hash[BucketOf(t.Word(j))];
      ChainOrder(t, head - 1, a, b);
    }
  }

  /** The inner loop: compare the word character by character with keyword `i` in the pool. */
  method Compare(t: Tables, z: seq<byte>, i: nat) returns (same: bool)
    requires t.Sized() && i < t.Count() && t.Stored(i) && |z| == t.len[i]
    ensures same == Same(z, t.Word(i))
  {
    var j := 0;
    while j < |z| && Mask(z[j]) == t.text[t.offset[i] + j]
      invariant j <= |z|
      invariant forall k | 0 <= k < j :: Mask(z[k]) == t.Word(i)[k]
    {
      j := j + 1;
    }
    same := j >= |z|;
    assert j < |z| ==> Mask(z[j]) != t.Word(i)[j];
  }

  /** Keyword `k`, if it is the word looked for, is still ahead on the chain that starts at `i`. */
  ghost predicate StillAhead(t: Tables, z: seq<byte>, i: int, k: nat)
    requires t.Valid() && i < t.Count() && k < t.Count()
  {
    t.EntryOk(k) && Same(z, t.Word(k)) ==> t.OnChain(i, k)
  }

  ghost predicate Ahead(t: Tables, z: seq<byte>, i: int)
    requires t.Valid() && i < t.Count()
  {
    forall k: nat | k < t.Count() :: StillAhead(t, z, i, k)
  }

  function Head(t: Tables, z: seq<byte>): (i: int)
    requires t.Valid() && 0 < |z| < 0x8000_0000
    ensures -1 <= i < t.Count()
  {
    var head: int := t.hash[BucketOf(z)];
    head - 1
  }

  lemma AheadAtHead(t: Tables, z: seq<byte>)
    requires t.Valid() && 0 < |z| < 0x8000_0000
    ensures Ahead(t, z, Head(t, z))
  {
    hide Bucket;
    forall k: nat | k < t.Count()
      ensures StillAhead(t, z, Head(t, z), k)
    {
      assert t.EntryOk(k);
      if Same(z, t.Word(k)) {
        SameWordSameBucket(z, t.Word(k));
      }
    }
  }

  lemma AheadAfterMiss(t: Tables, z: seq<byte>, i: nat)
    requires t.Valid() && i < t.Count() && Ahead(t, z, i) && t.EntryOk(i) && !Same(z, t.Word(i))
    ensures Ahead(t, z, t.Link(i))
  {
    hide Bucket, Same;
    forall k: nat | k < t.Count()
      ensures StillAhead(t, z, t.Link(i), k)
    {
      assert StillAhead(t, z, i, k);
    }
  }

  /** The first hit on the chain is what the plain search finds; running off the chain means it finds nothing. */
  lemma FirstHitIsSearch(t: Tables, z: seq<byte>, i: int)
    requires t.Valid() && i < t.Count() && Ahead(t, z, i)
    requires 0 <= i ==> t.EntryOk(i) && Same(z, t.Word(i))
    ensures t.Search(z, t.Count()) == if i >= 0 then i else -1
  {
    hide Bucket, Same, IsWord;
    SearchFindsLast(t, z, t.Count());
    var r := t.Search(z, t.Count());
    if r >= 0 {
      assert StillAhead(t, z, i, r);
    }
  }

  /** The hash lookup.  `pType` is written only when a keyword is found. */
  method KeywordCode(t: Tables, z: seq<byte>, pType: nat) returns (n: nat, pType': nat)
    requires t.Valid() && |z| < 0x8000_0000
    ensures n == |z|
    ensures var r := t.Search(z, t.Count()); pType' == if r >= 0 then t.code[r] else pType
  {
    hide Bucket, Tables.Search, Ahead;
    n, pType' := |z|, pType;
    if n >= 2 {
      var i := Head(t, z);
      AheadAtHead(t, z);
      while i >= 0
        invariant -1 <= i < t.Count() && pType' == pType && Ahead(t, z, i)
      {
        assert t.EntryOk(i);
        if t.len[i] == n {
          var same := Compare(t, z, i);
          if same {
            FirstHitIsSearch(t, z, i);
            pType' := t.code[i];
            return;
          }
        }
        AheadAfterMiss(t, z, i);
        i := t.Link(i);
      }
      FirstHitIsSearch(t, z, i);
    } else {
      ShortIsNoKeyword(t, z);
    }
  }

  lemma ShortIsNoKeyword(t: Tables, z: seq<byte>)
    requires t.Valid() && |z| < 2
    ensures t.Search(z, t.Count()) == -1
  {
    hide Bucket;
    SearchFindsLast(t, z, t.Count());
  }

  /** What the tokenizer calls: a keyword's code, or the code of an identifier. */
  method KeywordOrId(t: Tables, z: seq<byte>, tkId: nat) returns (id: nat)
    requires t.Valid() && |z| < 0x8000_0000
    ensures var r := t.Search(z, t.Count()); id == if r >= 0 then t.code[r] else tkId
  {
    id := tkId;
    var n;
    n, id := KeywordCode(t, z, id);
  }

  // --- The search a reader would write: equality up to letter case, nothing hashed or masked ---

  predicate CaseEqual(z: seq<byte>, w: seq<byte>) {
    |z| == |w| && forall j | 0 <= j < |z| :: Upper(z[j]) == w[j]
  }

  function FoldedSearch(t: Tables, z: seq<byte>, k: nat): (r: int)
    requires t.Valid() && k <= t.Count()
    ensures -1 <= r < k
  {
    if k == 0 then -1
    else if t.EntryOk(k - 1) && CaseEqual(z, t.Word(k - 1)) then k - 1
    else FoldedSearch(t, z, k - 1)
  }

  lemma {:induction false} FoldedSearchHits(t: Tables, z: seq<byte>, k: nat)
    requires t.Valid() && k <= t.Count()
    ensures var r := FoldedSearch(t, z, k); r >= 0 ==> t.EntryOk(r) && CaseEqual(z, t.Word(r))
  {
    hide Bucket, IsWord;
    if k > 0 {
      FoldedSearchHits(t, z, k - 1);
    }
  }

  /** On words without a DEL character the two searches agree... */
  lemma {:induction false} SearchIsFoldedSearch(t: Tables, z: seq<byte>, k: nat)
    requires t.Valid() && k <= t.Count() && DEL !in z
    ensures t.Search(z, k) == FoldedSearch(t, z, k)
  {
    hide Bucket;
    if k > 0 {
      assert t.EntryOk(k - 1);
      if |z| == |t.Word(k - 1)| {
        SameIsFoldedEquality(z, t.Word(k - 1));
      }
      SearchIsFoldedSearch(t, z, k - 1);
    }
  }

  /** ...and that is the only exception: a keyword with its underscore replaced by DEL is taken for a keyword,
      though it equals none. */
  lemma DelPassesForUnderscore(t: Tables, k: nat, j: nat)
    requires t.Valid() && k < t.Count() && t.EntryOk(k) && j < |t.Word(k)| && t.Word(k)[j] == UNDERSCORE
    ensures t.Search(t.Word(k)[j := DEL], t.Count()) >= k
    ensures FoldedSearch(t, t.Word(k)[j := DEL], t.Count()) == -1
  {
    hide Bucket;
    var z := t.Word(k)[j := DEL];
    SameIsFoldedEquality(z, t.Word(k));
    assert forall i | 0 <= i < |z| && i != j :: z[i] == t.Word(k)[i];
    SearchFindsLast(t, z, t.Count());
    DelIsInNoKeyword(t, z, j, t.Count());
  }

  lemma {:induction false} DelIsInNoKeyword(t: Tables, z: seq<byte>, j: nat, k: nat)
    requires t.Valid() && k <= t.Count() && j < |z| && z[j] == DEL
    ensures FoldedSearch(t, z, k) == -1
  {
    hide Bucket;
    if k > 0 {
      DelIsInNoKeyword(t, z, j, k - 1);
      assert t.EntryOk(k - 1);
      if |z| == |t.Word(k - 1)| {
        assert Upper(z[j]) != t.Word(k - 1)[j];
      }
    }
  }

  /** With distinct keywords the search finds a word's keyword, whichever it is. */
  lemma SearchFindsKeyword(t: Tables, z: seq<byte>, k: nat)
    requires t.Valid() && ChainsDiffer(t) && k < t.Count() && t.EntryOk(k) && CaseEqual(z, t.Word(k))
    ensures t.Search(z, t.Count()) == k
  {
    hide Bucket, IsWord;
    SearchFindsLast(t, z, t.Count());
    SameIsFoldedEquality(z, t.Word(k));
    var r := t.Search(z, t.Count());
    assert Same(z, t.Word(k)) && r >= k;
    if r != k {
      assert t.Word(r) == t.Word(k) by {
        assert forall j | 0 <= j < |z| :: t.Word(r)[j] == Mask(z[j]) == t.Word(k)[j];
      }
      WordsAreUnique(t, r, k);
    }
  }

  /** Each DEL read as an underscore. */
  function AsUnderscore(z: seq<byte>): (r: seq<byte>)
    ensures |r| == |z|
  {
    seq(|z|, j requires 0 <= j < |z| => if z[j] == DEL then UNDERSCORE else z[j])
  }

  /** The masked comparison is equality up to case with every DEL read as an underscore. */
  lemma SameIsEqualAsUnderscore(z: seq<byte>, w: seq<byte>)
    requires IsWord(w)
    ensures Same(z, w) <==> CaseEqual(AsUnderscore(z), w)
  {
    if |z| == |w| {
      SameIsFoldedEquality(z, w);
      forall j | 0 <= j < |z|
        ensures Upper(AsUnderscore(z)[j]) == w[j] <==> Upper(z[j]) == w[j] || (z[j] == DEL && w[j] == UNDERSCORE)
      {
        assert IsCapital(w[j]) || w[j] == UNDERSCORE;
      }
      hide IsWord, Mask, Upper;
      if Same(z, w) {
        forall j | 0 <= j < |z|
          ensures Upper(AsUnderscore(z)[j]) == w[j]
        {
        }
      }
      if CaseEqual(AsUnderscore(z), w) {
        forall j | 0 <= j < |z|
          ensures Upper(z[j]) == w[j] || (z[j] == DEL && w[j] == UNDERSCORE)
        {
          assert Upper(AsUnderscore(z)[j]) == w[j];
        }
      }
    }
  }

  /** The word is keyword `k` once each DEL is read as an underscore. */
  ghost predicate IsKeyword(t: Tables, z: seq<byte>, k: nat)
    requires t.Valid() && k < t.Count()
  {
    t.EntryOk(k) && CaseEqual(AsUnderscore(z), t.Word(k))
  }

  /** The recogniser's search and the case-insensitive search differ for exactly these words: those that hold a DEL
      and are a keyword once each DEL is read as an underscore. */
  lemma SearchesDifferExactly(t: Tables, z: seq<byte>)
    requires t.Valid()
    ensures t.Search(z, t.Count()) != FoldedSearch(t, z, t.Count()) <==>
            DEL in z && exists k: nat :: k < t.Count() && IsKeyword(t, z, k)
  {
    hide Bucket, IsWord, CaseEqual, Same;
    if DEL !in z {
      SearchIsFoldedSearch(t, z, t.Count());
    } else {
      var j :| 0 <= j < |z| && z[j] == DEL;
      DelIsInNoKeyword(t, z, j, t.Count());
      SearchFindsLast(t, z, t.Count());
      var r := t.Search(z, t.Count());
      if r >= 0 {
        WordOfEntry(t, r);
        SameIsEqualAsUnderscore(z, t.Word(r));
        assert IsKeyword(t, z, r);
      } else {
        forall k: nat | k < t.Count()
          ensures !IsKeyword(t, z, k)
        {
          assert t.EntryOk(k);
          WordOfEntry(t, k);
          SameIsEqualAsUnderscore(z, t.Word(k));
        }
      }
    }
  }

  lemma WordOfEntry(t: Tables, k: nat)
    requires t.Sized() && k < t.Count() && t.EntryOk(k)
    ensures IsWord(t.Word(k))
  {
  }
}
