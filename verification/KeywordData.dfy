/** The generated keyword tables themselves, row by row as they are laid out, and the check that they
    are valid: 124 keywords overlapping in 553 characters, filed in 127 buckets. */
module KeywordData {
  import opened KeywordHash

  /** What the pool is made of. */
  type letter = b: byte | IsCapital(b) || b == UNDERSCORE witness 0x41

  /** The first 16 rows of the text pool, 18 characters to a row. */
  function UpperRows(r: nat): (row: seq<letter>)
    ensures |row| == 18
  {
    if r == 0 then [82, 69, 73, 78, 68, 69, 88, 69, 68, 69, 83, 67, 65, 80, 69, 65, 67, 72]  // REINDEXEDESCAPEACH
    else if r == 1 then [69, 67, 75, 69, 89, 66, 69, 70, 79, 82, 69, 73, 71, 78, 79, 82, 69, 71]  // ECKEYBEFOREIGNOREG
    else if r == 2 then [69, 88, 80, 76, 65, 73, 78, 83, 84, 69, 65, 68, 68, 65, 84, 65, 66, 65]  // EXPLAINSTEADDATABA
    else if r == 3 then [83, 69, 76, 69, 67, 84, 65, 66, 76, 69, 70, 84, 72, 69, 78, 68, 69, 70]  // SELECTABLEFTHENDEF
    else if r == 4 then [69, 82, 82, 65, 66, 76, 69, 76, 83, 69, 88, 67, 69, 80, 84, 82, 65, 78]  // ERRABLELSEXCEPTRAN
    else if r == 5 then [83, 65, 67, 84, 73, 79, 78, 65, 84, 85, 82, 65, 76, 84, 69, 82, 65, 73]  // SACTIONATURALTERAI
    else if r == 6 then [83, 69, 88, 67, 76, 85, 83, 73, 86, 69, 88, 73, 83, 84, 83, 65, 86, 69]  // SEXCLUSIVEXISTSAVE
    else if r == 7 then [80, 79, 73, 78, 84, 69, 82, 83, 69, 67, 84, 82, 73, 71, 71, 69, 82, 69]  // POINTERSECTRIGGERE
    else if r == 8 then [70, 69, 82, 69, 78, 67, 69, 83, 67, 79, 78, 83, 84, 82, 65, 73, 78, 84]  // FERENCESCONSTRAINT
    else if r == 9 then [79, 70, 70, 83, 69, 84, 69, 77, 80, 79, 82, 65, 82, 89, 85, 78, 73, 81]  // OFFSETEMPORARYUNIQ
    else if r == 10 then [85, 69, 82, 89, 87, 73, 84, 72, 79, 85, 84, 69, 82, 69, 76, 69, 65, 83]  // UERYWITHOUTERELEAS
    else if r == 11 then [69, 65, 84, 84, 65, 67, 72, 65, 86, 73, 78, 71, 82, 79, 85, 80, 68, 65]  // EATTACHAVINGROUPDA
    else if r == 12 then [84, 69, 66, 69, 71, 73, 78, 78, 69, 82, 69, 67, 85, 82, 83, 73, 86, 69]  // TEBEGINNERECURSIVE
    else if r == 13 then [66, 69, 84, 87, 69, 69, 78, 79, 84, 78, 85, 76, 76, 73, 75, 69, 67, 65]  // BETWEENOTNULLIKECA
    else if r == 14 then [83, 67, 65, 68, 69, 76, 69, 84, 69, 67, 65, 83, 69, 67, 79, 76, 76, 65]  // SCADELETECASECOLLA
    else [84, 69, 67, 82, 69, 65, 84, 69, 67, 85, 82, 82, 69, 78, 84, 95, 68, 65]  // TECREATECURRENT_DA
  }

  /** The other 15 rows. */
  function LowerRows(r: nat): (row: seq<letter>)
    ensures |row| == if r < 14 then 18 else 13
  {
    if r == 0 then [84, 69, 68, 69, 84, 65, 67, 72, 73, 77, 77, 69, 68, 73, 65, 84, 69, 74]  // TEDETACHIMMEDIATEJ
    else if r == 1 then [79, 73, 78, 83, 69, 82, 84, 77, 65, 84, 67, 72, 80, 76, 65, 78, 65, 76]  // OINSERTMATCHPLANAL
    else if r == 2 then [89, 90, 69, 80, 82, 65, 71, 77, 65, 66, 79, 82, 84, 86, 65, 76, 85, 69]  // YZEPRAGMABORTVALUE
    else if r == 3 then [83, 86, 73, 82, 84, 85, 65, 76, 73, 77, 73, 84, 87, 72, 69, 78, 87, 72]  // SVIRTUALIMITWHENWH
    else if r == 4 then [69, 82, 69, 78, 65, 77, 69, 65, 70, 84, 69, 82, 69, 80, 76, 65, 67, 69]  // ERENAMEAFTEREPLACE
    else if r == 5 then [65, 78, 68, 69, 70, 65, 85, 76, 84, 65, 85, 84, 79, 73, 78, 67, 82, 69]  // ANDEFAULTAUTOINCRE
    else if r == 6 then [77, 69, 78, 84, 67, 65, 83, 84, 67, 79, 76, 85, 77, 78, 67, 79, 77, 77]  // MENTCASTCOLUMNCOMM
    else if r == 7 then [73, 84, 67, 79, 78, 70, 76, 73, 67, 84, 67, 82, 79, 83, 83, 67, 85, 82]  // ITCONFLICTCROSSCUR
    else if r == 8 then [82, 69, 78, 84, 95, 84, 73, 77, 69, 83, 84, 65, 77, 80, 82, 73, 77, 65]  // RENT_TIMESTAMPRIMA
    else if r == 9 then [82, 89, 68, 69, 70, 69, 82, 82, 69, 68, 73, 83, 84, 73, 78, 67, 84, 68]  // RYDEFERREDISTINCTD
    else if r == 10 then [82, 79, 80, 70, 65, 73, 76, 70, 82, 79, 77, 70, 85, 76, 76, 71, 76, 79]  // ROPFAILFROMFULLGLO
    else if r == 11 then [66, 89, 73, 70, 73, 83, 78, 85, 76, 76, 79, 82, 68, 69, 82, 69, 83, 84]  // BYIFISNULLORDEREST
    else if r == 12 then [82, 73, 67, 84, 82, 73, 71, 72, 84, 82, 79, 76, 76, 66, 65, 67, 75, 82]  // RICTRIGHTROLLBACKR
    else if r == 13 then [79, 87, 85, 78, 73, 79, 78, 85, 83, 73, 78, 71, 86, 65, 67, 85, 85, 77]  // OWUNIONUSINGVACUUM
    else [86, 73, 69, 87, 73, 78, 73, 84, 73, 65, 76, 76, 89]  // VIEWINITIALLY
  }

  /** The text pool. */
  function TextRow(r: nat): (row: seq<letter>)
    ensures |row| == if r < 30 then 18 else 13
  {
    if r < 16 then UpperRows(r) else LowerRows(r - 16)
  }

  /** The bucket heads: 0 is an empty bucket and the rest are one too high. */
  function HashRow(r: nat): (row: seq<nat>)
    ensures |row| == if r < 9 then 13 else 10
  {
    if r == 0 then [76, 105, 117, 74, 0, 45, 0, 0, 82, 0, 77, 0, 0]
    else if r == 1 then [42, 12, 78, 15, 0, 116, 85, 54, 112, 0, 19, 0, 0]
    else if r == 2 then [121, 0, 119, 115, 0, 22, 93, 0, 9, 0, 0, 70, 71]
    else if r == 3 then [0, 69, 6, 0, 48, 90, 102, 0, 118, 101, 0, 0, 44]
    else if r == 4 then [0, 103, 24, 0, 17, 0, 122, 53, 23, 0, 5, 110, 25]
    else if r == 5 then [96, 0, 0, 124, 106, 60, 123, 57, 28, 55, 0, 91, 0]
    else if r == 6 then [100, 26, 0, 99, 0, 0, 0, 95, 92, 97, 88, 109, 14]
    else if r == 7 then [39, 108, 0, 81, 0, 18, 89, 111, 32, 0, 120, 80, 113]
    else if r == 8 then [62, 46, 84, 0, 0, 94, 40, 59, 114, 0, 36, 0, 0]
    else [29, 0, 86, 63, 64, 0, 20, 61, 0, 56]
  }

  /** The chain links, one too high again. */
  function NextRow(r: nat): (row: seq<nat>)
    ensures |row| == if r < 9 then 13 else 7
  {
    if r == 0 then [0, 0, 0, 0, 4, 0, 0, 0, 0, 0, 0, 0, 0]
    else if r == 1 then [0, 2, 0, 0, 0, 0, 0, 0, 13, 0, 0, 0, 0]
    else if r == 2 then [0, 7, 0, 0, 0, 0, 0, 0, 0, 0, 0, 0, 0]
    else if r == 3 then [0, 0, 0, 0, 33, 0, 21, 0, 0, 0, 0, 0, 50]
    else if r == 4 then [0, 43, 3, 47, 0, 0, 0, 0, 30, 0, 58, 0, 38]
    else if r == 5 then [0, 0, 0, 1, 66, 0, 0, 67, 0, 41, 0, 0, 0]
    else if r == 6 then [0, 0, 0, 49, 65, 0, 0, 0, 0, 31, 52, 16, 34]
    else if r == 7 then [10, 0, 0, 0, 0, 0, 0, 0, 11, 72, 79, 0, 8]
    else if r == 8 then [0, 104, 98, 0, 107, 0, 87, 0, 75, 51, 0, 27, 37]
    else [73, 83, 0, 35, 68, 0, 0]
  }

  /** The keyword lengths. */
  function LenRow(r: nat): (row: seq<nat>)
    ensures |row| == if r < 9 then 13 else 7
  {
    if r == 0 then [7, 7, 5, 4, 6, 4, 5, 3, 6, 7, 3, 6, 6]
    else if r == 1 then [7, 7, 3, 8, 2, 6, 5, 4, 4, 3, 10, 4, 6]
    else if r == 2 then [11, 6, 2, 7, 5, 5, 9, 6, 9, 9, 7, 10, 10]
    else if r == 3 then [4, 6, 2, 3, 9, 4, 2, 6, 5, 7, 4, 5, 7]
    else if r == 4 then [6, 6, 5, 6, 5, 5, 9, 7, 7, 3, 2, 4, 4]
    else if r == 5 then [7, 3, 6, 4, 7, 6, 12, 6, 9, 4, 6, 5, 4]
    else if r == 6 then [7, 6, 5, 6, 7, 5, 4, 5, 6, 5, 7, 3, 7]
    else if r == 7 then [13, 2, 2, 4, 6, 6, 8, 5, 17, 12, 7, 8, 8]
    else if r == 8 then [2, 4, 4, 4, 4, 4, 2, 2, 6, 5, 8, 5, 8]
    else [3, 5, 5, 6, 4, 9, 3]
  }

  /** Where each keyword starts in the pool. */
  function OffsetRow(r: nat): (row: seq<nat>)
    ensures |row| == if r < 9 then 13 else 7
  {
    if r == 0 then [0, 2, 2, 8, 9, 14, 16, 20, 23, 25, 25, 29, 33]
    else if r == 1 then [36, 41, 46, 48, 53, 54, 59, 62, 65, 67, 69, 78, 81]
    else if r == 2 then [86, 91, 95, 96, 101, 105, 109, 117, 122, 128, 136, 142, 152]
    else if r == 3 then [159, 162, 162, 165, 167, 167, 171, 176, 179, 184, 184, 188, 192]
    else if r == 4 then [199, 204, 209, 212, 218, 221, 225, 234, 240, 240, 240, 243, 246]
    else if r == 5 then [250, 251, 255, 261, 265, 272, 278, 290, 296, 305, 307, 313, 318]
    else if r == 6 then [320, 327, 332, 337, 343, 349, 354, 358, 361, 367, 371, 378, 380]
    else if r == 7 then [387, 389, 391, 400, 404, 410, 416, 424, 429, 429, 445, 452, 459]
    else if r == 8 then [460, 467, 471, 475, 479, 483, 486, 488, 490, 496, 500, 508, 513]
    else [521, 524, 529, 534, 540, 544, 549]
  }

  /** The token code of each keyword. */
  function CodeRow(r: nat): (row: seq<nat>)
    ensures |row| == if r < 9 then 13 else 7
  {
    if r == 0 then [93, 56, 140, 70, 42, 72, 104, 79, 63, 113, 74, 75, 31]
    else if r == 1 then [2, 77, 142, 69, 24, 119, 16, 98, 138, 11, 112, 139, 117]
    else if r == 2 then [6, 58, 107, 98, 141, 83, 9, 20, 13, 118, 88, 105, 99]
    else if r == 3 then [131, 81, 80, 111, 21, 21, 27, 103, 3, 25, 92, 98, 14]
    else if r == 4 then [62, 128, 127, 110, 5, 98, 84, 32, 35, 19, 78, 101, 31]
    else if r == 5 then [65, 61, 109, 136, 53, 17, 95, 71, 8, 124, 108, 30, 4]
    else if r == 6 then [60, 82, 57, 120, 91, 129, 137, 130, 94, 59, 85, 28, 100]
    else if r == 7 then [106, 15, 33, 66, 67, 10, 68, 98, 95, 95, 102, 7, 121]
    else if r == 8 then [29, 114, 73, 123, 98, 31, 64, 18, 34, 126, 86, 98, 12]
    else [87, 115, 125, 89, 90, 76, 116]
  }

  function TextAt(i: nat): letter
    requires i < 553
  {
    TextRow(i / 18)[i % 18]
  }

  function HashAt(h: nat): nat
    requires h < 127
  {
    HashRow(h / 13)[h % 13]
  }

  function NextAt(k: nat): nat
    requires k < 124
  {
    NextRow(k / 13)[k % 13]
  }

  function LenAt(k: nat): nat
    requires k < 124
  {
    LenRow(k / 13)[k % 13]
  }

  function OffsetAt(k: nat): nat
    requires k < 124
  {
    OffsetRow(k / 13)[k % 13]
  }

  function CodeAt(k: nat): nat
    requires k < 124
  {
    CodeRow(k / 13)[k % 13]
  }

  const SQL := Tables(
    seq(553, i requires 0 <= i < 553 => TextAt(i)),
    seq(127, h requires 0 <= h < 127 => HashAt(h)),
    seq(124, k requires 0 <= k < 124 => NextAt(k)),
    seq(124, k requires 0 <= k < 124 => LenAt(k)),
    seq(124, k requires 0 <= k < 124 => OffsetAt(k)),
    seq(124, k requires 0 <= k < 124 => CodeAt(k)))

  /** The links from `i` down lead to `k`. */
  predicate Reaches(i: int, k: nat)
    requires i < 124
    decreases i
  {
    k <= i && (k == i || (0 < NextAt(i) <= i && Reaches(NextAt(i) as int + -1, k)))
  }

  lemma Here(k: nat)
    requires k < 124
    ensures Reaches(k, k)
  {
  }

  /** The link of the keyword at row `q`, column `c` leads to `j`. */
  lemma Down(q: nat, c: nat, j: nat, k: nat)
    requires q <= 9 && c < |NextRow(q)| && k <= j < 13 * q + c < 124 && NextRow(q)[c] == j + 1 && Reaches(j, k)
    ensures Reaches(13 * q + c, k)
  {
    hide NextRow;
    assert NextAt(13 * q + c) as int + -1 == j;
  }

  lemma {:induction false} ReachesIsOnChain(i: int, k: nat)
    requires i < 124 && Reaches(i, k)
    ensures SQL.OnChain(i, k)
    decreases i
  {
    if k != i {
      ReachesIsOnChain(NextAt(i) as int + -1, k);
      assert SQL.Link(i) == NextAt(i) as int + -1;
    }
  }

  /** A keyword of `n` characters at `o`, the first `f` and the last `l`, whose bucket `h` starts a chain at index
      `head`. */
  datatype Filing = Filing(o: nat, n: nat, f: byte, l: byte, h: nat, head: nat)

  /** Keyword `k` is filed like that, and the chain leads to it. */
  predicate FiledAs(k: nat, x: Filing)
    requires k < 124
  {
    && 2 <= x.n && x.o + x.n <= 553 && x.h < 127 && x.head < 124
    && OffsetAt(k) == x.o && LenAt(k) == x.n && NextAt(k) <= k
    && TextAt(x.o) == x.f && TextAt(x.o + x.n - 1) == x.l && IsCapital(x.f) && IsCapital(x.l)
    && Bucket(CharMap(x.f), CharMap(x.l), x.n) == x.h && HashAt(x.h) == x.head + 1 && Reaches(x.head, k)
  }

  ghost predicate Filed(k: nat)
    requires k < 124
  {
    exists x :: FiledAs(k, x)
  }

  lemma FiledIsOk(k: nat)
    requires k < 124 && Filed(k)
    ensures SQL.EntryOk(k)
  {
    hide FiledAs, Tables.EntryOk;
    var x :| FiledAs(k, x);
    FiledAsIsOk(k, x);
  }

  lemma FiledAsIsOk(k: nat, x: Filing)
    requires k < 124 && FiledAs(k, x)
    ensures SQL.EntryOk(k)
  {
    hide Bucket, TextAt, HashAt, NextAt, LenAt, OffsetAt, Reaches, Tables.EntryOk, Tables.OnChain;
    SqlRow(k, x.o, x.n, x.h);
    ReachesIsOnChain(x.head, k);
    PoolIsLetters(x.o, x.n, SQL.text[x.o..x.o + x.n]);
    EntryIsOk(SQL, k, x.o, x.n, x.h, x.head);
  }

  lemma SqlRow(k: nat, o: nat, n: nat, h: nat)
    requires k < 124 && h < 127 && 0 < n && o + n <= 553
    ensures SQL.Sized() && SQL.Count() == 124 && |SQL.text| == 553
    ensures SQL.offset[k] == OffsetAt(k) && SQL.len[k] == LenAt(k) && SQL.next[k] == NextAt(k) && SQL.hash[h] == HashAt(h)
    ensures SQL.text[o] == TextAt(o) && SQL.text[o + n - 1] == TextAt(o + n - 1)
  {
    hide TextAt, HashAt, NextAt, LenAt, OffsetAt;
  }

  lemma EntryIsOk(t: Tables, k: nat, o: nat, n: nat, h: nat, head: nat)
    requires t.Sized() && k < t.Count() && head < t.Count() && h < HASH_SIZE
    requires t.offset[k] == o && t.len[k] == n && o + n <= |t.text| && 2 <= n < 0x8000_0000 && t.next[k] <= k
    requires var w := t.text[o..o + n]; forall j | 0 <= j < n :: IsCapital(w[j]) || w[j] == UNDERSCORE
    requires IsCapital(t.text[o]) && IsCapital(t.text[o + n - 1])
    requires Bucket(CharMap(t.text[o]), CharMap(t.text[o + n - 1]), n) == h
    requires t.hash[h] == head + 1 && t.OnChain(head, k)
    ensures t.EntryOk(k)
  {
    hide Bucket;
    var w := t.text[o..o + n];
    assert w[0] == t.text[o] && w[n - 1] == t.text[o + n - 1];
  }

  lemma PoolIsLetters(o: nat, n: nat, w: seq<byte>)
    requires o + n <= 553 && w == SQL.text[o..o + n]
    ensures forall j | 0 <= j < n :: IsCapital(w[j]) || w[j] == UNDERSCORE
  {
    forall j | 0 <= j < n
      ensures IsCapital(w[j]) || w[j] == UNDERSCORE
    {
      assert w[j] == TextAt(o + j);
    }
  }

  /** Filing, row by row and column by column: of the keyword, its first and last letter, and its bucket. */
  lemma File(q: nat, c: nat, qa: nat, ca: nat, qb: nat, cb: nat, qh: nat, ch: nat, x: Filing)
    requires q <= 9 && c < |NextRow(q)| && c < |LenRow(q)| && c < |OffsetRow(q)| && 13 * q + c < 124
    requires qa <= 30 && ca < |TextRow(qa)| && qb <= 30 && cb < |TextRow(qb)| && qh <= 9 && ch < |HashRow(qh)|
    requires 2 <= x.n && x.o + x.n <= 553 && x.h < 127 && x.head < 124
    requires OffsetRow(q)[c] == x.o && LenRow(q)[c] == x.n && NextRow(q)[c] <= 13 * q + c
    requires x.o == 18 * qa + ca && x.o + x.n - 1 == 18 * qb + cb && x.h == 13 * qh + ch
    requires TextRow(qa)[ca] == x.f && TextRow(qb)[cb] == x.l && IsCapital(x.f) && IsCapital(x.l)
    requires Bucket(CharMap(x.f), CharMap(x.l), x.n) == x.h && HashRow(qh)[ch] == x.head + 1
    requires Reaches(x.head, 13 * q + c)
    ensures Filed(13 * q + c)
  {
    hide NextRow, LenRow, OffsetRow, TextRow, HashRow, Bucket, Reaches;
    assert FiledAs(13 * q + c, x);
  }

  // A line each keyword: its chain from the bottom up, then where it is filed.
  lemma K0() ensures Filed(0) && Filed(1) {
    hide Reaches, Filed;
    assert Filed(0) by { Here(0); Down(5, 3, 0, 0); File(0, 0, 0, 0, 0, 6, 3, 1, Filing(0, 7, 82, 88, 40, 68)); }  // REINDEX
    assert Filed(1) by { Here(1); Down(1, 1, 1, 1); File(0, 1, 0, 2, 0, 8, 1, 3, Filing(2, 7, 73, 68, 16, 14)); }  // INDEXED
  }
  lemma K2() ensures Filed(2) && Filed(3) && Filed(4) {
    hide Reaches, Filed;
    assert Filed(2) by { Here(2); Down(4, 2, 2, 2); File(0, 2, 0, 2, 0, 6, 5, 9, Filing(2, 5, 73, 88, 74, 54)); }  // INDEX
    assert Filed(3) by { Here(3); Down(0, 4, 3, 3); File(0, 3, 0, 8, 0, 11, 4, 10, Filing(8, 4, 68, 67, 62, 4)); }  // DESC
    assert Filed(4) by { Here(4); File(0, 4, 0, 9, 0, 14, 4, 10, Filing(9, 6, 69, 69, 62, 4)); }  // ESCAPE
  }
  lemma K5() ensures Filed(5) && Filed(6) {
    hide Reaches, Filed;
    assert Filed(5) by { Here(5); File(0, 5, 0, 14, 0, 17, 3, 2, Filing(14, 4, 69, 72, 41, 5)); }  // EACH
    assert Filed(6) by { Here(6); Down(2, 1, 6, 6); File(0, 6, 0, 16, 1, 2, 5, 8, Filing(16, 5, 67, 75, 73, 27)); }  // CHECK
  }
  lemma K7() ensures Filed(7) && Filed(8) {
    hide Reaches, Filed;
    assert Filed(7) by { Here(7); Down(7, 12, 7, 7); Down(8, 1, 103, 7); File(0, 7, 1, 2, 1, 4, 5, 4, Filing(20, 3, 75, 89, 69, 105)); }  // KEY
    assert Filed(8) by { Here(8); File(0, 8, 1, 5, 1, 10, 2, 8, Filing(23, 6, 66, 69, 34, 8)); }  // BEFORE
  }
  lemma K9() ensures Filed(9) && Filed(10) && Filed(11) {
    hide Reaches, Filed;
    assert Filed(9) by { Here(9); Down(7, 0, 9, 9); File(0, 9, 1, 7, 1, 13, 6, 8, Filing(25, 7, 70, 78, 86, 91)); }  // FOREIGN
    assert Filed(10) by { Here(10); Down(7, 8, 10, 10); File(0, 10, 1, 7, 1, 9, 6, 0, Filing(25, 3, 70, 82, 78, 99)); }  // FOR
    assert Filed(11) by { Here(11); File(0, 11, 1, 11, 1, 16, 1, 1, Filing(29, 6, 73, 69, 14, 11)); }  // IGNORE
  }
  lemma K12() ensures Filed(12) && Filed(13) && Filed(14) {
    hide Reaches, Filed;
    assert Filed(12) by { Here(12); Down(1, 8, 12, 12); File(0, 12, 1, 15, 2, 2, 2, 5, Filing(33, 6, 82, 80, 31, 21)); }  // REGEXP
    assert Filed(13) by { Here(13); File(1, 0, 2, 0, 2, 6, 6, 12, Filing(36, 7, 69, 78, 90, 13)); }  // EXPLAIN
    assert Filed(14) by { Here(14); File(1, 1, 2, 5, 2, 11, 1, 3, Filing(41, 7, 73, 68, 16, 14)); }  // INSTEAD
  }
  lemma K15() ensures Filed(15) && Filed(16) && Filed(17) {
    hide Reaches, Filed;
    assert Filed(15) by { Here(15); Down(6, 11, 15, 15); File(1, 2, 2, 10, 2, 12, 3, 5, Filing(46, 3, 65, 68, 44, 89)); }  // ADD
    assert Filed(16) by { Here(16); File(1, 3, 2, 12, 3, 1, 4, 4, Filing(48, 8, 68, 69, 56, 16)); }  // DATABASE
    assert Filed(17) by { Here(17); File(1, 4, 2, 17, 3, 0, 7, 5, Filing(53, 2, 65, 83, 96, 17)); }  // AS
  }
  lemma K18() ensures Filed(18) && Filed(19) && Filed(20) {
    hide Reaches, Filed;
    assert Filed(18) by { Here(18); File(1, 5, 3, 0, 3, 5, 1, 10, Filing(54, 6, 83, 84, 23, 18)); }  // SELECT
    assert Filed(19) by { Here(19); File(1, 6, 3, 5, 3, 9, 9, 6, Filing(59, 5, 84, 69, 123, 19)); }  // TABLE
    assert Filed(20) by { Here(20); Down(3, 6, 20, 20); File(1, 7, 3, 8, 3, 11, 8, 1, Filing(62, 4, 76, 84, 105, 45)); }  // LEFT
  }
  lemma K21() ensures Filed(21) && Filed(22) && Filed(23) {
    hide Reaches, Filed;
    assert Filed(21) by { Here(21); File(1, 8, 3, 11, 3, 14, 2, 5, Filing(65, 4, 84, 78, 31, 21)); }  // THEN
    assert Filed(22) by { Here(22); File(1, 9, 3, 13, 3, 15, 4, 8, Filing(67, 3, 69, 68, 60, 22)); }  // END
    assert Filed(23) by { Here(23); File(1, 10, 3, 15, 4, 6, 4, 2, Filing(69, 10, 68, 69, 54, 23)); }  // DEFERRABLE
  }
  lemma K24() ensures Filed(24) && Filed(25) && Filed(26) {
    hide Reaches, Filed;
    assert Filed(24) by { Here(24); File(1, 11, 4, 6, 4, 9, 4, 12, Filing(78, 4, 69, 69, 64, 24)); }  // ELSE
    assert Filed(25) by { Here(25); File(1, 12, 4, 9, 4, 14, 6, 1, Filing(81, 6, 69, 84, 79, 25)); }  // EXCEPT
    assert Filed(26) by { Here(26); Down(8, 11, 26, 26); File(2, 0, 4, 14, 5, 6, 1, 5, Filing(86, 11, 84, 78, 18, 115)); }  // TRANSACTION
  }
  lemma K27() ensures Filed(27) && Filed(28) && Filed(29) {
    hide Reaches, Filed;
    assert Filed(27) by { Here(27); File(2, 1, 5, 1, 5, 6, 5, 8, Filing(91, 6, 65, 78, 73, 27)); }  // ACTION
    assert Filed(28) by { Here(28); File(2, 2, 5, 5, 5, 6, 9, 0, Filing(95, 2, 79, 78, 117, 28)); }  // ON
    assert Filed(29) by { Here(29); Down(4, 8, 29, 29); File(2, 3, 5, 6, 5, 12, 9, 7, Filing(96, 7, 78, 76, 124, 60)); }  // NATURAL
  }
  lemma K30() ensures Filed(30) && Filed(31) && Filed(32) {
    hide Reaches, Filed;
    assert Filed(30) by { Here(30); Down(6, 9, 30, 30); File(2, 4, 5, 11, 5, 15, 6, 10, Filing(101, 5, 65, 82, 88, 87)); }  // ALTER
    assert Filed(31) by { Here(31); File(2, 5, 5, 15, 6, 1, 7, 8, Filing(105, 5, 82, 69, 99, 31)); }  // RAISE
    assert Filed(32) by { Here(32); Down(3, 4, 32, 32); File(2, 6, 6, 1, 6, 9, 3, 12, Filing(109, 9, 69, 69, 51, 43)); }  // EXCLUSIVE
  }
  lemma K33() ensures Filed(33) && Filed(34) && Filed(35) {
    hide Reaches, Filed;
    assert Filed(33) by { Here(33); Down(6, 12, 33, 33); File(2, 7, 6, 9, 6, 14, 5, 11, Filing(117, 6, 69, 83, 76, 90)); }  // EXISTS
    assert Filed(34) by { Here(34); Down(9, 3, 34, 34); File(2, 8, 6, 14, 7, 4, 2, 0, Filing(122, 9, 83, 84, 26, 120)); }  // SAVEPOINT
    assert Filed(35) by { Here(35); File(2, 9, 7, 2, 7, 10, 8, 10, Filing(128, 9, 73, 84, 114, 35)); }  // INTERSECT
  }
  lemma K36() ensures Filed(36) && Filed(37) {
    hide Reaches, Filed;
    assert Filed(36) by { Here(36); Down(8, 12, 36, 36); File(2, 10, 7, 10, 7, 16, 0, 2, Filing(136, 7, 84, 82, 2, 116)); }  // TRIGGER
    assert Filed(37) by { Here(37); Down(4, 12, 37, 37); Down(6, 4, 64, 37); Down(9, 1, 82, 37); File(2, 11, 7, 16, 8, 7, 2, 2, Filing(142, 10, 82, 83, 28, 118)); }  // REFERENCES
  }
  lemma K38() ensures Filed(38) && Filed(39) {
    hide Reaches, Filed;
    assert Filed(38) by { Here(38); File(2, 12, 8, 8, 8, 17, 7, 0, Filing(152, 10, 67, 84, 91, 38)); }  // CONSTRAINT
    assert Filed(39) by { Here(39); File(3, 0, 8, 15, 9, 0, 8, 6, Filing(159, 4, 73, 79, 110, 39)); }  // INTO
  }
  lemma K40() ensures Filed(40) && Filed(41) {
    hide Reaches, Filed;
    assert Filed(40) by { Here(40); Down(5, 9, 40, 40); Down(8, 8, 74, 40); File(3, 1, 9, 0, 9, 5, 7, 12, Filing(162, 6, 79, 84, 103, 112)); }  // OFFSET
    assert Filed(41) by { Here(41); File(3, 2, 9, 0, 9, 1, 1, 0, Filing(162, 2, 79, 70, 13, 41)); }  // OF
  }
  lemma K42() ensures Filed(42) && Filed(43) {
    hide Reaches, Filed;
    assert Filed(42) by { Here(42); Down(4, 1, 42, 42); File(3, 3, 9, 3, 9, 5, 1, 7, Filing(165, 3, 83, 84, 20, 53)); }  // SET
    assert Filed(43) by { Here(43); File(3, 4, 9, 5, 9, 13, 3, 12, Filing(167, 9, 84, 89, 51, 43)); }  // TEMPORARY
  }
  lemma K44() ensures Filed(44) && Filed(45) && Filed(46) {
    hide Reaches, Filed;
    assert Filed(44) by { Here(44); File(3, 5, 9, 5, 9, 8, 0, 5, Filing(167, 4, 84, 80, 5, 44)); }  // TEMP
    assert Filed(45) by { Here(45); File(3, 6, 9, 9, 9, 10, 8, 1, Filing(171, 2, 79, 82, 105, 45)); }  // OR
    assert Filed(46) by { Here(46); Down(4, 3, 46, 46); File(3, 7, 9, 14, 10, 1, 9, 9, Filing(176, 6, 85, 69, 126, 55)); }  // UNIQUE
  }
  lemma K47() ensures Filed(47) && Filed(48) && Filed(49) {
    hide Reaches, Filed;
    assert Filed(47) by { Here(47); File(3, 8, 9, 17, 10, 3, 3, 4, Filing(179, 5, 81, 89, 43, 47)); }  // QUERY
    assert Filed(48) by { Here(48); Down(6, 3, 48, 48); File(3, 9, 10, 4, 10, 10, 0, 8, Filing(184, 7, 87, 84, 8, 81)); }  // WITHOUT
    assert Filed(49) by { Here(49); Down(3, 12, 49, 49); Down(6, 10, 51, 49); File(3, 10, 10, 4, 10, 7, 7, 6, Filing(184, 4, 87, 72, 97, 88)); }  // WITH
  }
  lemma K50() ensures Filed(50) && Filed(51) && Filed(52) {
    hide Reaches, Filed;
    assert Filed(50) by { Here(50); Down(8, 9, 50, 50); File(3, 11, 10, 8, 10, 12, 8, 8, Filing(188, 5, 79, 82, 112, 113)); }  // OUTER
    assert Filed(51) by { Here(51); Down(6, 10, 51, 51); File(3, 12, 10, 12, 11, 0, 7, 6, Filing(192, 7, 82, 69, 97, 88)); }  // RELEASE
    assert Filed(52) by { Here(52); File(4, 0, 11, 1, 11, 6, 4, 7, Filing(199, 6, 65, 72, 59, 52)); }  // ATTACH
  }
  lemma K53() ensures Filed(53) && Filed(54) && Filed(55) {
    hide Reaches, Filed;
    assert Filed(53) by { Here(53); File(4, 1, 11, 6, 11, 11, 1, 7, Filing(204, 6, 72, 71, 20, 53)); }  // HAVING
    assert Filed(54) by { Here(54); File(4, 2, 11, 11, 11, 15, 5, 9, Filing(209, 5, 71, 80, 74, 54)); }  // GROUP
    assert Filed(55) by { Here(55); File(4, 3, 11, 14, 12, 1, 9, 9, Filing(212, 6, 85, 69, 126, 55)); }  // UPDATE
  }
  lemma K56() ensures Filed(56) && Filed(57) && Filed(58) {
    hide Reaches, Filed;
    assert Filed(56) by { Here(56); File(4, 4, 12, 2, 12, 6, 5, 7, Filing(218, 5, 66, 78, 72, 56)); }  // BEGIN
    assert Filed(57) by { Here(57); Down(4, 10, 57, 57); File(4, 5, 12, 5, 12, 9, 9, 3, Filing(221, 5, 73, 82, 120, 62)); }  // INNER
    assert Filed(58) by { Here(58); File(4, 6, 12, 9, 12, 17, 8, 7, Filing(225, 9, 82, 69, 111, 58)); }  // RECURSIVE
  }
  lemma K59() ensures Filed(59) && Filed(60) && Filed(61) {
    hide Reaches, Filed;
    assert Filed(59) by { Here(59); File(4, 7, 13, 0, 13, 6, 5, 5, Filing(234, 7, 66, 78, 70, 59)); }  // BETWEEN
    assert Filed(60) by { Here(60); File(4, 8, 13, 6, 13, 12, 9, 7, Filing(240, 7, 78, 76, 124, 60)); }  // NOTNULL
    assert Filed(61) by { Here(61); File(4, 9, 13, 6, 13, 8, 8, 0, Filing(240, 3, 78, 84, 104, 61)); }  // NOT
  }
  lemma K62() ensures Filed(62) && Filed(63) && Filed(64) {
    hide Reaches, Filed;
    assert Filed(62) by { Here(62); File(4, 10, 13, 6, 13, 7, 9, 3, Filing(240, 2, 78, 79, 120, 62)); }  // NO
    assert Filed(63) by { Here(63); File(4, 11, 13, 9, 13, 12, 9, 4, Filing(243, 4, 78, 76, 121, 63)); }  // NULL
    assert Filed(64) by { Here(64); Down(6, 4, 64, 64); Down(9, 1, 82, 64); File(4, 12, 13, 12, 13, 15, 2, 2, Filing(246, 4, 76, 69, 28, 118)); }  // LIKE
  }
  lemma K65() ensures Filed(65) {
    hide Reaches, Filed;
    assert Filed(65) by { Here(65); Down(5, 4, 65, 65); File(5, 0, 13, 16, 14, 4, 2, 11, Filing(250, 7, 67, 69, 37, 69)); }  // CASCADE
  }
  lemma K66() ensures Filed(66) && Filed(67) {
    hide Reaches, Filed;
    assert Filed(66) by { Here(66); Down(5, 7, 66, 66); Down(9, 0, 72, 66); File(5, 1, 13, 17, 14, 1, 3, 8, Filing(251, 3, 65, 67, 47, 117)); }  // ASC
    assert Filed(67) by { Here(67); Down(9, 4, 67, 67); File(5, 2, 14, 3, 14, 8, 4, 6, Filing(255, 6, 68, 69, 58, 121)); }  // DELETE
  }
  lemma K68() ensures Filed(68) && Filed(69) && Filed(70) {
    hide Reaches, Filed;
    assert Filed(68) by { Here(68); File(5, 3, 14, 9, 14, 12, 3, 1, Filing(261, 4, 67, 69, 40, 68)); }  // CASE
    assert Filed(69) by { Here(69); File(5, 4, 14, 13, 15, 1, 2, 11, Filing(265, 7, 67, 69, 37, 69)); }  // COLLATE
    assert Filed(70) by { Here(70); File(5, 5, 15, 2, 15, 7, 2, 12, Filing(272, 6, 67, 69, 38, 70)); }  // CREATE
  }
  lemma K71() ensures Filed(71) && Filed(72) && Filed(73) {
    hide Reaches, Filed;
    assert Filed(71) by { Here(71); Down(7, 9, 71, 71); File(5, 6, 15, 8, 16, 1, 3, 9, Filing(278, 12, 67, 69, 48, 100)); }  // CURRENT_DATE
    assert Filed(72) by { Here(72); Down(9, 0, 72, 72); File(5, 7, 16, 2, 16, 7, 3, 8, Filing(290, 6, 68, 72, 47, 117)); }  // DETACH
    assert Filed(73) by { Here(73); File(5, 8, 16, 8, 16, 16, 0, 3, Filing(296, 9, 73, 69, 3, 73)); }  // IMMEDIATE
  }
  lemma K74() ensures Filed(74) && Filed(75) && Filed(76) {
    hide Reaches, Filed;
    assert Filed(74) by { Here(74); Down(8, 8, 74, 74); File(5, 9, 16, 17, 17, 2, 7, 12, Filing(305, 4, 74, 78, 103, 112)); }  // JOIN
    assert Filed(75) by { Here(75); File(5, 10, 17, 1, 17, 6, 0, 0, Filing(307, 6, 73, 84, 0, 75)); }  // INSERT
    assert Filed(76) by { Here(76); File(5, 11, 17, 7, 17, 11, 0, 10, Filing(313, 5, 77, 72, 10, 76)); }  // MATCH
  }
  lemma K77() ensures Filed(77) && Filed(78) {
    hide Reaches, Filed;
    assert Filed(77) by { Here(77); File(5, 12, 17, 12, 17, 15, 1, 2, Filing(318, 4, 80, 78, 15, 77)); }  // PLAN
    assert Filed(78) by { Here(78); Down(7, 10, 78, 78); File(6, 0, 17, 14, 18, 2, 3, 6, Filing(320, 7, 65, 69, 45, 101)); }  // ANALYZE
  }
  lemma K79() ensures Filed(79) && Filed(80) {
    hide Reaches, Filed;
    assert Filed(79) by { Here(79); File(6, 1, 18, 3, 18, 8, 7, 11, Filing(327, 6, 80, 65, 102, 79)); }  // PRAGMA
    assert Filed(80) by { Here(80); File(6, 2, 18, 8, 18, 12, 7, 3, Filing(332, 5, 65, 84, 94, 80)); }  // ABORT
  }
  lemma K81() ensures Filed(81) && Filed(82) {
    hide Reaches, Filed;
    assert Filed(81) by { Here(81); File(6, 3, 18, 13, 19, 0, 0, 8, Filing(337, 6, 86, 83, 8, 81)); }  // VALUES
    assert Filed(82) by { Here(82); Down(9, 1, 82, 82); File(6, 4, 19, 1, 19, 7, 2, 2, Filing(343, 7, 86, 76, 28, 118)); }  // VIRTUAL
  }
  lemma K83() ensures Filed(83) && Filed(84) {
    hide Reaches, Filed;
    assert Filed(83) by { Here(83); File(6, 5, 19, 7, 19, 11, 8, 2, Filing(349, 5, 76, 84, 106, 83)); }  // LIMIT
    assert Filed(84) by { Here(84); File(6, 6, 19, 12, 19, 15, 1, 6, Filing(354, 4, 87, 78, 19, 84)); }  // WHEN
  }
  lemma K85() ensures Filed(85) && Filed(86) {
    hide Reaches, Filed;
    assert Filed(85) by { Here(85); File(6, 7, 19, 16, 20, 2, 9, 2, Filing(358, 5, 87, 69, 119, 85)); }  // WHERE
    assert Filed(86) by { Here(86); Down(8, 6, 86, 86); File(6, 8, 20, 1, 20, 6, 7, 7, Filing(361, 6, 82, 69, 98, 110)); }  // RENAME
  }
  lemma K87() ensures Filed(87) && Filed(88) && Filed(89) {
    hide Reaches, Filed;
    assert Filed(87) by { Here(87); File(6, 9, 20, 7, 20, 11, 6, 10, Filing(367, 5, 65, 82, 88, 87)); }  // AFTER
    assert Filed(88) by { Here(88); File(6, 10, 20, 11, 20, 17, 7, 6, Filing(371, 7, 82, 69, 97, 88)); }  // REPLACE
    assert Filed(89) by { Here(89); File(6, 11, 21, 0, 21, 2, 3, 5, Filing(378, 3, 65, 68, 44, 89)); }  // AND
  }
  lemma K90() ensures Filed(90) && Filed(91) && Filed(92) {
    hide Reaches, Filed;
    assert Filed(90) by { Here(90); File(6, 12, 21, 2, 21, 8, 5, 11, Filing(380, 7, 68, 84, 76, 90)); }  // DEFAULT
    assert Filed(91) by { Here(91); File(7, 0, 21, 9, 22, 3, 6, 8, Filing(387, 13, 65, 84, 86, 91)); }  // AUTOINCREMENT
    assert Filed(92) by { Here(92); File(7, 1, 21, 11, 21, 12, 2, 6, Filing(389, 2, 84, 79, 32, 92)); }  // TO
  }
  lemma K93() ensures Filed(93) && Filed(94) && Filed(95) {
    hide Reaches, Filed;
    assert Filed(93) by { Here(93); File(7, 2, 21, 13, 21, 14, 8, 5, Filing(391, 2, 73, 78, 109, 93)); }  // IN
    assert Filed(94) by { Here(94); File(7, 3, 22, 4, 22, 7, 6, 7, Filing(400, 4, 67, 84, 85, 94)); }  // CAST
    assert Filed(95) by { Here(95); File(7, 4, 22, 8, 22, 13, 5, 0, Filing(404, 6, 67, 78, 65, 95)); }  // COLUMN
  }
  lemma K96() ensures Filed(96) && Filed(97) {
    hide Reaches, Filed;
    assert Filed(96) by { Here(96); File(7, 5, 22, 14, 23, 1, 6, 9, Filing(410, 6, 67, 84, 87, 96)); }  // COMMIT
    assert Filed(97) by { Here(97); Down(8, 2, 97, 97); Down(8, 4, 106, 97); File(7, 6, 23, 2, 23, 9, 6, 11, Filing(416, 8, 67, 84, 89, 108)); }  // CONFLICT
  }
  lemma K98() ensures Filed(98) && Filed(99) {
    hide Reaches, Filed;
    assert Filed(98) by { Here(98); File(7, 7, 23, 10, 23, 14, 6, 3, Filing(424, 5, 67, 83, 81, 98)); }  // CROSS
    assert Filed(99) by { Here(99); File(7, 8, 23, 15, 24, 13, 6, 0, Filing(429, 17, 67, 80, 78, 99)); }  // CURRENT_TIMESTAMP
  }
  lemma K100() ensures Filed(100) && Filed(101) {
    hide Reaches, Filed;
    assert Filed(100) by { Here(100); File(7, 9, 23, 15, 24, 8, 3, 9, Filing(429, 12, 67, 69, 48, 100)); }  // CURRENT_TIME
    assert Filed(101) by { Here(101); File(7, 10, 24, 13, 25, 1, 3, 6, Filing(445, 7, 80, 89, 45, 101)); }  // PRIMARY
  }
  lemma K102() ensures Filed(102) && Filed(103) {
    hide Reaches, Filed;
    assert Filed(102) by { Here(102); File(7, 11, 25, 2, 25, 9, 4, 1, Filing(452, 8, 68, 68, 53, 102)); }  // DEFERRED
    assert Filed(103) by { Here(103); Down(8, 1, 103, 103); File(7, 12, 25, 9, 25, 16, 5, 4, Filing(459, 8, 68, 84, 69, 105)); }  // DISTINCT
  }
  lemma K104() ensures Filed(104) && Filed(105) {
    hide Reaches, Filed;
    assert Filed(104) by { Here(104); File(8, 0, 25, 10, 25, 11, 0, 1, Filing(460, 2, 73, 83, 1, 104)); }  // IS
    assert Filed(105) by { Here(105); File(8, 1, 25, 17, 26, 2, 5, 4, Filing(467, 4, 68, 80, 69, 105)); }  // DROP
  }
  lemma K106() ensures Filed(106) && Filed(107) {
    hide Reaches, Filed;
    assert Filed(106) by { Here(106); Down(8, 4, 106, 106); File(8, 2, 26, 3, 26, 6, 6, 11, Filing(471, 4, 70, 76, 89, 108)); }  // FAIL
    assert Filed(107) by { Here(107); File(8, 3, 26, 7, 26, 10, 7, 1, Filing(475, 4, 70, 77, 92, 107)); }  // FROM
  }
  lemma K108() ensures Filed(108) {
    hide Reaches, Filed;
    assert Filed(108) by { Here(108); File(8, 4, 26, 11, 26, 14, 6, 11, Filing(479, 4, 70, 76, 89, 108)); }  // FULL
  }
  lemma K109() ensures Filed(109) && Filed(110) {
    hide Reaches, Filed;
    assert Filed(109) by { Here(109); File(8, 5, 26, 15, 27, 0, 4, 11, Filing(483, 4, 71, 66, 63, 109)); }  // GLOB
    assert Filed(110) by { Here(110); File(8, 6, 27, 0, 27, 1, 7, 7, Filing(486, 2, 66, 89, 98, 110)); }  // BY
  }
  lemma K111() ensures Filed(111) && Filed(112) && Filed(113) {
    hide Reaches, Filed;
    assert Filed(111) by { Here(111); File(8, 7, 27, 2, 27, 3, 1, 8, Filing(488, 2, 73, 70, 21, 111)); }  // IF
    assert Filed(112) by { Here(112); File(8, 8, 27, 4, 27, 9, 7, 12, Filing(490, 6, 73, 76, 103, 112)); }  // ISNULL
    assert Filed(113) by { Here(113); File(8, 9, 27, 10, 27, 14, 8, 8, Filing(496, 5, 79, 82, 112, 113)); }  // ORDER
  }
  lemma K114() ensures Filed(114) && Filed(115) && Filed(116) {
    hide Reaches, Filed;
    assert Filed(114) by { Here(114); File(8, 10, 27, 14, 28, 3, 2, 3, Filing(500, 8, 82, 84, 29, 114)); }  // RESTRICT
    assert Filed(115) by { Here(115); File(8, 11, 28, 4, 28, 8, 1, 5, Filing(508, 5, 82, 84, 18, 115)); }  // RIGHT
    assert Filed(116) by { Here(116); File(8, 12, 28, 9, 28, 16, 0, 2, Filing(513, 8, 82, 75, 2, 116)); }  // ROLLBACK
  }
  lemma K117() ensures Filed(117) && Filed(118) && Filed(119) {
    hide Reaches, Filed;
    assert Filed(117) by { Here(117); File(9, 0, 28, 17, 29, 1, 3, 8, Filing(521, 3, 82, 87, 47, 117)); }  // ROW
    assert Filed(118) by { Here(118); File(9, 1, 29, 2, 29, 6, 2, 2, Filing(524, 5, 85, 78, 28, 118)); }  // UNION
    assert Filed(119) by { Here(119); File(9, 2, 29, 7, 29, 11, 7, 10, Filing(529, 5, 85, 71, 101, 119)); }  // USING
  }
  lemma K120() ensures Filed(120) && Filed(121) && Filed(122) {
    hide Reaches, Filed;
    assert Filed(120) by { Here(120); File(9, 3, 29, 12, 29, 17, 2, 0, Filing(534, 6, 86, 77, 26, 120)); }  // VACUUM
    assert Filed(121) by { Here(121); File(9, 4, 30, 0, 30, 3, 4, 6, Filing(540, 4, 86, 87, 58, 121)); }  // VIEW
    assert Filed(122) by { Here(122); File(9, 5, 30, 4, 30, 12, 5, 6, Filing(544, 9, 73, 89, 71, 122)); }  // INITIALLY
  }
  lemma K123() ensures Filed(123) {
    hide Reaches, Filed;
    assert Filed(123) by { Here(123); File(9, 6, 30, 9, 30, 11, 5, 3, Filing(549, 3, 65, 76, 68, 123)); }  // ALL
  }

  lemma EveryKeywordIsListed(k: nat)
    requires k < 124
    ensures Filed(k)
  {
    hide *;
    K0(); K2(); K5(); K7(); K9(); K12(); K15(); K18(); K21(); K24(); K27(); K30(); K33(); K36(); K38(); K40();
    K42(); K44(); K47(); K50(); K53(); K56(); K59(); K62(); K65(); K66(); K68(); K71(); K74(); K77(); K79();
    K81(); K83(); K85(); K87(); K90(); K93(); K96(); K98(); K100(); K102(); K104(); K106(); K108(); K109();
    K111(); K114(); K117(); K120(); K123();
  }

  lemma EveryKeywordIsFiled(k: nat)
    requires k < 124
    ensures SQL.EntryOk(k)
  {
    EveryKeywordIsListed(k);
    FiledIsOk(k);
  }

  /** The shipped tables are valid. */
  lemma SqlIsValid()
    ensures SQL.Valid()
  {
    forall h: nat | h < HASH_SIZE
      ensures SQL.hash[h] <= SQL.Count()
    {
      HeadsAreIndices(h);
    }
    forall k: nat | k < SQL.Count()
      ensures SQL.EntryOk(k)
    {
      EveryKeywordIsFiled(k);
    }
  }

  lemma HeadsAreIndices(h: nat)
    requires h < 127
    ensures HashAt(h) <= 124
  {
  }

  // --- No keyword occurs twice ---

  /** The words differ in length or in some letter. */
  predicate Differ(j: nat, k: nat)
    requires j < 124 && k < 124
  {
    LenAt(j) != LenAt(k) || exists p | 0 <= p < LenAt(k) :: DifferAt(j, k, p)
  }

  predicate DifferAt(j: nat, k: nat, p: nat)
    requires j < 124 && k < 124
  {
    OffsetAt(j) + p < 553 && OffsetAt(k) + p < 553 && TextAt(OffsetAt(j) + p) != TextAt(OffsetAt(k) + p)
  }

  /** The letters `p` of the two words lie at columns `c` and `d` of rows `q` and `r`. */
  lemma ByLetter(j: nat, k: nat, p: nat, q: nat, c: nat, r: nat, d: nat)
    requires j < 124 && k < 124 && q <= 30 && c < |TextRow(q)| && r <= 30 && d < |TextRow(r)|
    requires p < LenAt(k) && OffsetAt(j) + p == 18 * q + c && OffsetAt(k) + p == 18 * r + d
    requires TextRow(q)[c] != TextRow(r)[d]
    ensures Differ(j, k)
  {
    hide TextRow, LenAt, OffsetAt;
    assert DifferAt(j, k, p);
  }

  /** Keyword `j` differs from every keyword on the chain from `i` down. */
  predicate Lone(j: nat, i: int)
    requires j < 124 && i < 124
    decreases if i < 0 then 0 else i + 1
  {
    i < 0 || (Differ(j, i) && NextAt(i) <= i && Lone(j, NextAt(i) as int + -1))
  }

  lemma LastDiffers(j: nat, i: nat)
    requires j < 124 && i < 124 && NextAt(i) == 0 && (LenAt(j) != LenAt(i) || Differ(j, i))
    ensures Lone(j, i)
  {
    hide NextAt, LenAt, DifferAt;
    assert NextAt(i) as int + -1 < 0;
  }

  lemma NextDiffers(j: nat, i: nat, n: nat)
    requires j < 124 && n < i < 124 && NextAt(i) == n + 1 && (LenAt(j) != LenAt(i) || Differ(j, i)) && Lone(j, n)
    ensures Lone(j, i)
  {
    hide NextAt, LenAt, DifferAt;
    assert NextAt(i) as int + -1 == n;
  }

  /** The chain below `j` starts at `i` and spells other words. */
  predicate Apart(j: nat, i: nat)
    requires j < 124 && i < 124
  {
    NextAt(j) == i + 1 && Lone(j, i)
  }

  // One line for each two keywords of one length on one chain, naming the first letter that differs.
  lemma D0()
    ensures Differ(14, 1) && Differ(43, 32) && Differ(54, 2)
  {
    hide Differ;
    assert Differ(14, 1) by { ByLetter(14, 1, 2, 2, 7, 0, 4); }  // INSTEAD and INDEXED
    assert Differ(43, 32) by { ByLetter(43, 32, 0, 9, 5, 6, 1); }  // TEMPORARY and EXCLUSIVE
    assert Differ(54, 2) by { ByLetter(54, 2, 0, 11, 11, 0, 2); }  // GROUP and INDEX
  }

  lemma D1()
    ensures Differ(55, 46) && Differ(60, 29) && Differ(69, 65)
  {
    hide Differ;
    assert Differ(55, 46) by { ByLetter(55, 46, 1, 11, 15, 9, 15); }  // UPDATE and UNIQUE
    assert Differ(60, 29) by { ByLetter(60, 29, 1, 13, 7, 5, 7); }  // NOTNULL and NATURAL
    assert Differ(69, 65) by { ByLetter(69, 65, 1, 14, 14, 13, 17); }  // COLLATE and CASCADE
  }

  lemma D2()
    ensures Differ(87, 30) && Differ(88, 51) && Differ(89, 15)
  {
    hide Differ;
    assert Differ(87, 30) by { ByLetter(87, 30, 1, 20, 8, 5, 12); }  // AFTER and ALTER
    assert Differ(88, 51) by { ByLetter(88, 51, 2, 20, 13, 10, 14); }  // REPLACE and RELEASE
    assert Differ(89, 15) by { ByLetter(89, 15, 1, 21, 1, 2, 11); }  // AND and ADD
  }

  lemma D3()
    ensures Differ(100, 71) && Differ(101, 78) && Differ(108, 106)
  {
    hide Differ;
    assert Differ(100, 71) by { ByLetter(100, 71, 8, 24, 5, 15, 16); }  // CURRENT_TIME and CURRENT_DATE
    assert Differ(101, 78) by { ByLetter(101, 78, 0, 24, 13, 17, 14); }  // PRIMARY and ANALYZE
    assert Differ(108, 106) by { ByLetter(108, 106, 1, 26, 12, 26, 4); }  // FULL and FAIL
  }

  lemma D4()
    ensures Differ(112, 40) && Differ(113, 50) && Differ(117, 66)
  {
    hide Differ;
    assert Differ(112, 40) by { ByLetter(112, 40, 0, 27, 4, 9, 0); }  // ISNULL and OFFSET
    assert Differ(113, 50) by { ByLetter(113, 50, 1, 27, 11, 10, 9); }  // ORDER and OUTER
    assert Differ(117, 66) by { ByLetter(117, 66, 0, 28, 17, 13, 17); }  // ROW and ASC
  }

  // One line for each keyword that is not last on its chain.
  lemma U0()
    ensures Apart(4, 3) && Apart(14, 1) && Apart(21, 12) && Apart(27, 6) && Apart(43, 32)
  {
    hide Lone, Differ;
    assert Apart(4, 3) by { LastDiffers(4, 3); }  // ESCAPE: DESC
    assert Apart(14, 1) by { D0(); LastDiffers(14, 1); }  // INSTEAD: INDEXED
    assert Apart(21, 12) by { LastDiffers(21, 12); }  // THEN: REGEXP
    assert Apart(27, 6) by { LastDiffers(27, 6); }  // ACTION: CHECK
    assert Apart(43, 32) by { D0(); LastDiffers(43, 32); }  // TEMPORARY: EXCLUSIVE
  }

  lemma U1()
    ensures Apart(45, 20) && Apart(51, 49) && Apart(53, 42) && Apart(54, 2) && Apart(55, 46)
  {
    hide Lone, Differ;
    assert Apart(45, 20) by { LastDiffers(45, 20); }  // OR: LEFT
    assert Apart(51, 49) by { LastDiffers(51, 49); }  // RELEASE: WITH
    assert Apart(53, 42) by { LastDiffers(53, 42); }  // HAVING: SET
    assert Apart(54, 2) by { D0(); LastDiffers(54, 2); }  // GROUP: INDEX
    assert Apart(55, 46) by { D1(); LastDiffers(55, 46); }  // UPDATE: UNIQUE
  }

  lemma U2()
    ensures Apart(60, 29) && Apart(62, 57) && Apart(64, 37) && Apart(68, 0) && Apart(69, 65)
  {
    hide Lone, Differ;
    assert Apart(60, 29) by { D1(); LastDiffers(60, 29); }  // NOTNULL: NATURAL
    assert Apart(62, 57) by { LastDiffers(62, 57); }  // NO: INNER
    assert Apart(64, 37) by { LastDiffers(64, 37); }  // LIKE: REFERENCES
    assert Apart(68, 0) by { LastDiffers(68, 0); }  // CASE: REINDEX
    assert Apart(69, 65) by { D1(); LastDiffers(69, 65); }  // COLLATE: CASCADE
  }

  lemma U3()
    ensures Apart(72, 66) && Apart(74, 40) && Apart(81, 48) && Apart(82, 64) && Apart(87, 30)
  {
    hide Lone, Differ;
    assert Apart(72, 66) by { LastDiffers(72, 66); }  // DETACH: ASC
    assert Apart(74, 40) by { LastDiffers(74, 40); }  // JOIN: OFFSET
    assert Apart(81, 48) by { LastDiffers(81, 48); }  // VALUES: WITHOUT
    assert Apart(82, 64) by { LastDiffers(82, 37); NextDiffers(82, 64, 37); }  // VIRTUAL: LIKE, REFERENCES
    assert Apart(87, 30) by { D2(); LastDiffers(87, 30); }  // AFTER: ALTER
  }

  lemma U4()
    ensures Apart(88, 51) && Apart(89, 15) && Apart(90, 33) && Apart(91, 9) && Apart(99, 10)
  {
    hide Lone, Differ;
    assert Apart(88, 51) by { LastDiffers(88, 49); D2(); NextDiffers(88, 51, 49); }  // REPLACE: RELEASE, WITH
    assert Apart(89, 15) by { D2(); LastDiffers(89, 15); }  // AND: ADD
    assert Apart(90, 33) by { LastDiffers(90, 33); }  // DEFAULT: EXISTS
    assert Apart(91, 9) by { LastDiffers(91, 9); }  // AUTOINCREMENT: FOREIGN
    assert Apart(99, 10) by { LastDiffers(99, 10); }  // CURRENT_TIMESTAMP: FOR
  }

  lemma U5()
    ensures Apart(100, 71) && Apart(101, 78) && Apart(103, 7) && Apart(105, 103) && Apart(106, 97)
  {
    hide Lone, Differ;
    assert Apart(100, 71) by { D3(); LastDiffers(100, 71); }  // CURRENT_TIME: CURRENT_DATE
    assert Apart(101, 78) by { D3(); LastDiffers(101, 78); }  // PRIMARY: ANALYZE
    assert Apart(103, 7) by { LastDiffers(103, 7); }  // DISTINCT: KEY
    assert Apart(105, 103) by { LastDiffers(105, 7); NextDiffers(105, 103, 7); }  // DROP: DISTINCT, KEY
    assert Apart(106, 97) by { LastDiffers(106, 97); }  // FAIL: CONFLICT
  }

  lemma U6()
    ensures Apart(108, 106) && Apart(110, 86) && Apart(112, 74) && Apart(113, 50) && Apart(115, 26)
  {
    hide Lone, Differ;
    assert Apart(108, 106) by { LastDiffers(108, 97); D3(); NextDiffers(108, 106, 97); }  // FULL: FAIL, CONFLICT
    assert Apart(110, 86) by { LastDiffers(110, 86); }  // BY: RENAME
    assert Apart(112, 74) by { D4(); LastDiffers(112, 40); NextDiffers(112, 74, 40); }  // ISNULL: JOIN, OFFSET
    assert Apart(113, 50) by { D4(); LastDiffers(113, 50); }  // ORDER: OUTER
    assert Apart(115, 26) by { LastDiffers(115, 26); }  // RIGHT: TRANSACTION
  }

  lemma U7()
    ensures Apart(116, 36) && Apart(117, 72) && Apart(118, 82) && Apart(120, 34) && Apart(121, 67)
  {
    hide Lone, Differ;
    assert Apart(116, 36) by { LastDiffers(116, 36); }  // ROLLBACK: TRIGGER
    assert Apart(117, 72) by { D4(); LastDiffers(117, 66); NextDiffers(117, 72, 66); }  // ROW: DETACH, ASC
    assert Apart(118, 82) by { LastDiffers(118, 37); NextDiffers(118, 64, 37); NextDiffers(118, 82, 64); }  // UNION: VIRTUAL, LIKE, REFERENCES
    assert Apart(120, 34) by { LastDiffers(120, 34); }  // VACUUM: SAVEPOINT
    assert Apart(121, 67) by { LastDiffers(121, 67); }  // VIEW: DELETE
  }

  predicate IsLinked(k: nat) {
    k in {
      4, 14, 21, 27, 43, 45, 51, 53, 54, 55, 60, 62, 64, 68, 69, 72,
      74, 81, 82, 87, 88, 89, 90, 91, 99, 100, 101, 103, 105, 106, 108, 110,
      112, 113, 115, 116, 117, 118, 120, 121
    }
  }

  lemma OthersEndChains(k: nat)
    requires k < 124 && !IsLinked(k)
    ensures NextAt(k) == 0
  {
  }

  lemma LinkedAreApart(k: nat) returns (i: nat)
    requires k < 124 && IsLinked(k)
    ensures i < 124 && Apart(k, i)
  {
    hide Apart;
    U0(); U1(); U2(); U3(); U4(); U5(); U6(); U7();
    i :| i < 124 && Apart(k, i);
  }

  lemma {:induction false} LoneDiffers(j: nat, i: int, k: nat)
    requires j < 124 && i < 124 && k < 124 && Lone(j, i) && SQL.OnChain(i, k)
    ensures Differ(j, k)
    decreases i
  {
    hide NextAt, Differ;
    if k != i {
      assert SQL.Link(i) == NextAt(i) as int + -1;
      LoneDiffers(j, NextAt(i) as int + -1, k);
    }
  }

  lemma DifferIsDifferent(j: nat, k: nat)
    requires j < 124 && k < 124 && Differ(j, k) && SQL.EntryOk(j) && SQL.EntryOk(k)
    ensures SQL.Word(j) != SQL.Word(k)
  {
    hide Bucket, IsWord, TextAt, NextAt, LenAt, OffsetAt, HashAt, Tables.OnChain, BucketOf;
    assert SQL.len[j] == LenAt(j) && SQL.len[k] == LenAt(k) && SQL.offset[j] == OffsetAt(j) && SQL.offset[k] == OffsetAt(k);
    if LenAt(j) == LenAt(k) {
      var p :| 0 <= p < LenAt(k) && DifferAt(j, k, p);
      WordLetter(j, p);
      WordLetter(k, p);
    }
  }

  lemma WordLetter(k: nat, p: nat)
    requires k < 124 && SQL.EntryOk(k) && p < LenAt(k)
    ensures p < |SQL.Word(k)| && OffsetAt(k) + p < 553 && SQL.Word(k)[p] == TextAt(OffsetAt(k) + p)
  {
    hide Bucket, IsWord, TextAt, NextAt, LenAt, OffsetAt, HashAt, Tables.OnChain, BucketOf;
    assert SQL.len[k] == LenAt(k) && SQL.offset[k] == OffsetAt(k) && |SQL.text| == 553;
    assert SQL.text[OffsetAt(k) + p] == TextAt(OffsetAt(k) + p);
  }

  /** No two of the shipped keywords are equal. */
  lemma SqlChainsDiffer()
    ensures SQL.Valid() && ChainsDiffer(SQL)
  {
    SqlIsValid();
    forall j: nat, k: nat | k < j < SQL.Count()
      ensures DiffersBelow(SQL, j, k)
    {
      EveryKeywordIsFiled(j);
      EveryKeywordIsFiled(k);
      if SQL.OnChain(j, k) {
        KeywordsDiffer(j, k);
      }
    }
  }

  lemma KeywordsDiffer(j: nat, k: nat)
    requires k < j < 124 && SQL.OnChain(j, k) && SQL.EntryOk(j) && SQL.EntryOk(k)
    ensures SQL.Word(j) != SQL.Word(k)
  {
    hide NextAt, LenAt, OffsetAt, HashAt, TextAt, Lone, Bucket, IsWord, Tables.EntryOk, Tables.Word, IsLinked;
    assert SQL.Link(j) == NextAt(j) as int + -1;
    if !IsLinked(j) {
      OthersEndChains(j);
    } else {
      var i := LinkedAreApart(j);
      LoneDiffers(j, i, k);
      DifferIsDifferent(j, k);
    }
  }

  // --- The keywords by name ---

  /** Keyword `k` is spelled `w` and has the token code `code`. */
  predicate Named(k: nat, w: string, code: nat)
  {
    && k < 124 && LenAt(k) == |w| && OffsetAt(k) + |w| <= 553 && CodeAt(k) == code
    && (forall j | 0 <= j < |w| :: LetterIs(OffsetAt(k) + j, w[j]))
  }

  predicate LetterIs(i: nat, c: char)
    requires i < 553
  {
    c as int == TextAt(i) as int
  }

  predicate RowLetterIs(q: nat, c: nat, ch: char)
    requires q <= 30 && c < |TextRow(q)|
  {
    ch as int == TextRow(q)[c] as int
  }

  lemma TextAtRow(i: nat, q: nat, c: nat)
    requires q <= 30 && c < |TextRow(q)| && i == 18 * q + c
    ensures i < 553 && TextAt(i) == TextRow(q)[c]
  {
    hide TextRow;
  }

  /** Of the keyword at row `r`, column `d`, the first `n` letters stand in row `q` from column `c` on, the others at the start of the
      next row. */
  lemma Spell(r: nat, d: nat, w: string, code: nat, q: nat, c: nat, n: nat)
    requires r <= 9 && d < |LenRow(r)| && d < |OffsetRow(r)| && d < |CodeRow(r)| && 13 * r + d < 124
    requires LenRow(r)[d] == |w| && OffsetRow(r)[d] == 18 * q + c && CodeRow(r)[d] == code
    requires q <= 30 && n <= |w| && c + n <= |TextRow(q)| && (n < |w| ==> c + n == 18 && q < 30 && |w| - n <= |TextRow(q + 1)|)
    requires forall j | 0 <= j < n :: RowLetterIs(q, c + j, w[j])
    requires n < |w| ==> forall j | n <= j < |w| :: RowLetterIs(q + 1, j - n, w[j])
    ensures Named(13 * r + d, w, code)
  {
    hide TextRow, TextAt, LenRow, OffsetRow, CodeRow;
    var k := 13 * r + d;
    assert LenAt(k) == |w| && OffsetAt(k) == 18 * q + c && CodeAt(k) == code;
    hide LenAt, OffsetAt, CodeAt;
    forall j | 0 <= j < |w|
      ensures OffsetAt(k) + j < 553 && LetterIs(OffsetAt(k) + j, w[j])
    {
      if j < n {
        assert RowLetterIs(q, c + j, w[j]);
        TextAtRow(OffsetAt(k) + j, q, c + j);
      } else {
        assert RowLetterIs(q + 1, j - n, w[j]);
        TextAtRow(OffsetAt(k) + j, q + 1, j - n);
      }
    }
  }

  lemma W0()
    ensures Named(0, "REINDEX", 93) && Named(1, "INDEXED", 56)
  {
    hide Named;
    assert Named(0, "REINDEX", 93) by { Spell(0, 0, "REINDEX", 93, 0, 0, 7); }
    assert Named(1, "INDEXED", 56) by { Spell(0, 1, "INDEXED", 56, 0, 2, 7); }
  }

  lemma W2()
    ensures Named(2, "INDEX", 140) && Named(3, "DESC", 70)
  {
    hide Named;
    assert Named(2, "INDEX", 140) by { Spell(0, 2, "INDEX", 140, 0, 2, 5); }
    assert Named(3, "DESC", 70) by { Spell(0, 3, "DESC", 70, 0, 8, 4); }
  }

  lemma W4()
    ensures Named(4, "ESCAPE", 42) && Named(5, "EACH", 72)
  {
    hide Named;
    assert Named(4, "ESCAPE", 42) by { Spell(0, 4, "ESCAPE", 42, 0, 9, 6); }
    assert Named(5, "EACH", 72) by { Spell(0, 5, "EACH", 72, 0, 14, 4); }
  }

  lemma W6()
    ensures Named(6, "CHECK", 104) && Named(7, "KEY", 79)
  {
    hide Named;
    assert Named(6, "CHECK", 104) by { Spell(0, 6, "CHECK", 104, 0, 16, 2); }
    assert Named(7, "KEY", 79) by { Spell(0, 7, "KEY", 79, 1, 2, 3); }
  }

  lemma W8()
    ensures Named(8, "BEFORE", 63) && Named(9, "FOREIGN", 113)
  {
    hide Named;
    assert Named(8, "BEFORE", 63) by { Spell(0, 8, "BEFORE", 63, 1, 5, 6); }
    assert Named(9, "FOREIGN", 113) by { Spell(0, 9, "FOREIGN", 113, 1, 7, 7); }
  }

  lemma W10()
    ensures Named(10, "FOR", 74) && Named(11, "IGNORE", 75)
  {
    hide Named;
    assert Named(10, "FOR", 74) by { Spell(0, 10, "FOR", 74, 1, 7, 3); }
    assert Named(11, "IGNORE", 75) by { Spell(0, 11, "IGNORE", 75, 1, 11, 6); }
  }

  lemma W12()
    ensures Named(12, "REGEXP", 31) && Named(13, "EXPLAIN", 2)
  {
    hide Named;
    assert Named(12, "REGEXP", 31) by { Spell(0, 12, "REGEXP", 31, 1, 15, 3); }
    assert Named(13, "EXPLAIN", 2) by { Spell(1, 0, "EXPLAIN", 2, 2, 0, 7); }
  }

  lemma W14()
    ensures Named(14, "INSTEAD", 77) && Named(15, "ADD", 142)
  {
    hide Named;
    assert Named(14, "INSTEAD", 77) by { Spell(1, 1, "INSTEAD", 77, 2, 5, 7); }
    assert Named(15, "ADD", 142) by { Spell(1, 2, "ADD", 142, 2, 10, 3); }
  }

  lemma W16()
    ensures Named(16, "DATABASE", 69) && Named(17, "AS", 24)
  {
    hide Named;
    assert Named(16, "DATABASE", 69) by { Spell(1, 3, "DATABASE", 69, 2, 12, 6); }
    assert Named(17, "AS", 24) by { Spell(1, 4, "AS", 24, 2, 17, 1); }
  }

  lemma W18()
    ensures Named(18, "SELECT", 119) && Named(19, "TABLE", 16)
  {
    hide Named;
    assert Named(18, "SELECT", 119) by { Spell(1, 5, "SELECT", 119, 3, 0, 6); }
    assert Named(19, "TABLE", 16) by { Spell(1, 6, "TABLE", 16, 3, 5, 5); }
  }

  lemma W20()
    ensures Named(20, "LEFT", 98) && Named(21, "THEN", 138) && Named(22, "END", 11)
  {
    hide Named;
    assert Named(20, "LEFT", 98) by { Spell(1, 7, "LEFT", 98, 3, 8, 4); }
    assert Named(21, "THEN", 138) by { Spell(1, 8, "THEN", 138, 3, 11, 4); }
    assert Named(22, "END", 11) by { Spell(1, 9, "END", 11, 3, 13, 3); }
  }

  lemma W23()
    ensures Named(23, "DEFERRABLE", 112) && Named(24, "ELSE", 139)
  {
    hide Named;
    assert Named(23, "DEFERRABLE", 112) by { Spell(1, 10, "DEFERRABLE", 112, 3, 15, 3); }
    assert Named(24, "ELSE", 139) by { Spell(1, 11, "ELSE", 139, 4, 6, 4); }
  }

  lemma W25()
    ensures Named(25, "EXCEPT", 117)
  {
    hide Named;
    assert Named(25, "EXCEPT", 117) by { Spell(1, 12, "EXCEPT", 117, 4, 9, 6); }
  }

  lemma W26()
    ensures Named(26, "TRANSACTION", 6)
  {
    hide Named;
    assert Named(26, "TRANSACTION", 6) by { Spell(2, 0, "TRANSACTION", 6, 4, 14, 4); }
  }

  lemma W27()
    ensures Named(27, "ACTION", 58) && Named(28, "ON", 107)
  {
    hide Named;
    assert Named(27, "ACTION", 58) by { Spell(2, 1, "ACTION", 58, 5, 1, 6); }
    assert Named(28, "ON", 107) by { Spell(2, 2, "ON", 107, 5, 5, 2); }
  }

  lemma W29()
    ensures Named(29, "NATURAL", 98) && Named(30, "ALTER", 141)
  {
    hide Named;
    assert Named(29, "NATURAL", 98) by { Spell(2, 3, "NATURAL", 98, 5, 6, 7); }
    assert Named(30, "ALTER", 141) by { Spell(2, 4, "ALTER", 141, 5, 11, 5); }
  }

  lemma W31()
    ensures Named(31, "RAISE", 83) && Named(32, "EXCLUSIVE", 9)
  {
    hide Named;
    assert Named(31, "RAISE", 83) by { Spell(2, 5, "RAISE", 83, 5, 15, 3); }
    assert Named(32, "EXCLUSIVE", 9) by { Spell(2, 6, "EXCLUSIVE", 9, 6, 1, 9); }
  }

  lemma W33()
    ensures Named(33, "EXISTS", 20)
  {
    hide Named;
    assert Named(33, "EXISTS", 20) by { Spell(2, 7, "EXISTS", 20, 6, 9, 6); }
  }

  lemma W34()
    ensures Named(34, "SAVEPOINT", 13)
  {
    hide Named;
    assert Named(34, "SAVEPOINT", 13) by { Spell(2, 8, "SAVEPOINT", 13, 6, 14, 4); }
  }

  lemma W35()
    ensures Named(35, "INTERSECT", 118) && Named(36, "TRIGGER", 88)
  {
    hide Named;
    assert Named(35, "INTERSECT", 118) by { Spell(2, 9, "INTERSECT", 118, 7, 2, 9); }
    assert Named(36, "TRIGGER", 88) by { Spell(2, 10, "TRIGGER", 88, 7, 10, 7); }
  }

  lemma W37()
    ensures Named(37, "REFERENCES", 105)
  {
    hide Named;
    assert Named(37, "REFERENCES", 105) by { Spell(2, 11, "REFERENCES", 105, 7, 16, 2); }
  }

  lemma W38()
    ensures Named(38, "CONSTRAINT", 99)
  {
    hide Named;
    assert Named(38, "CONSTRAINT", 99) by { Spell(2, 12, "CONSTRAINT", 99, 8, 8, 10); }
  }

  lemma W39()
    ensures Named(39, "INTO", 131)
  {
    hide Named;
    assert Named(39, "INTO", 131) by { Spell(3, 0, "INTO", 131, 8, 15, 3); }
  }

  lemma W40()
    ensures Named(40, "OFFSET", 81)
  {
    hide Named;
    assert Named(40, "OFFSET", 81) by { Spell(3, 1, "OFFSET", 81, 9, 0, 6); }
  }

  lemma W41()
    ensures Named(41, "OF", 80) && Named(42, "SET", 111)
  {
    hide Named;
    assert Named(41, "OF", 80) by { Spell(3, 2, "OF", 80, 9, 0, 2); }
    assert Named(42, "SET", 111) by { Spell(3, 3, "SET", 111, 9, 3, 3); }
  }

  lemma W43()
    ensures Named(43, "TEMPORARY", 21) && Named(44, "TEMP", 21)
  {
    hide Named;
    assert Named(43, "TEMPORARY", 21) by { Spell(3, 4, "TEMPORARY", 21, 9, 5, 9); }
    assert Named(44, "TEMP", 21) by { Spell(3, 5, "TEMP", 21, 9, 5, 4); }
  }

  lemma W45()
    ensures Named(45, "OR", 27) && Named(46, "UNIQUE", 103)
  {
    hide Named;
    assert Named(45, "OR", 27) by { Spell(3, 6, "OR", 27, 9, 9, 2); }
    assert Named(46, "UNIQUE", 103) by { Spell(3, 7, "UNIQUE", 103, 9, 14, 4); }
  }

  lemma W47()
    ensures Named(47, "QUERY", 3) && Named(48, "WITHOUT", 25)
  {
    hide Named;
    assert Named(47, "QUERY", 3) by { Spell(3, 8, "QUERY", 3, 9, 17, 1); }
    assert Named(48, "WITHOUT", 25) by { Spell(3, 9, "WITHOUT", 25, 10, 4, 7); }
  }

  lemma W49()
    ensures Named(49, "WITH", 92) && Named(50, "OUTER", 98)
  {
    hide Named;
    assert Named(49, "WITH", 92) by { Spell(3, 10, "WITH", 92, 10, 4, 4); }
    assert Named(50, "OUTER", 98) by { Spell(3, 11, "OUTER", 98, 10, 8, 5); }
  }

  lemma W51()
    ensures Named(51, "RELEASE", 14) && Named(52, "ATTACH", 62)
  {
    hide Named;
    assert Named(51, "RELEASE", 14) by { Spell(3, 12, "RELEASE", 14, 10, 12, 6); }
    assert Named(52, "ATTACH", 62) by { Spell(4, 0, "ATTACH", 62, 11, 1, 6); }
  }

  lemma W53()
    ensures Named(53, "HAVING", 128) && Named(54, "GROUP", 127)
  {
    hide Named;
    assert Named(53, "HAVING", 128) by { Spell(4, 1, "HAVING", 128, 11, 6, 6); }
    assert Named(54, "GROUP", 127) by { Spell(4, 2, "GROUP", 127, 11, 11, 5); }
  }

  lemma W55()
    ensures Named(55, "UPDATE", 110) && Named(56, "BEGIN", 5)
  {
    hide Named;
    assert Named(55, "UPDATE", 110) by { Spell(4, 3, "UPDATE", 110, 11, 14, 4); }
    assert Named(56, "BEGIN", 5) by { Spell(4, 4, "BEGIN", 5, 12, 2, 5); }
  }

  lemma W57()
    ensures Named(57, "INNER", 98) && Named(58, "RECURSIVE", 84)
  {
    hide Named;
    assert Named(57, "INNER", 98) by { Spell(4, 5, "INNER", 98, 12, 5, 5); }
    assert Named(58, "RECURSIVE", 84) by { Spell(4, 6, "RECURSIVE", 84, 12, 9, 9); }
  }

  lemma W59()
    ensures Named(59, "BETWEEN", 32) && Named(60, "NOTNULL", 35)
  {
    hide Named;
    assert Named(59, "BETWEEN", 32) by { Spell(4, 7, "BETWEEN", 32, 13, 0, 7); }
    assert Named(60, "NOTNULL", 35) by { Spell(4, 8, "NOTNULL", 35, 13, 6, 7); }
  }

  lemma W61()
    ensures Named(61, "NOT", 19) && Named(62, "NO", 78) && Named(63, "NULL", 101)
  {
    hide Named;
    assert Named(61, "NOT", 19) by { Spell(4, 9, "NOT", 19, 13, 6, 3); }
    assert Named(62, "NO", 78) by { Spell(4, 10, "NO", 78, 13, 6, 2); }
    assert Named(63, "NULL", 101) by { Spell(4, 11, "NULL", 101, 13, 9, 4); }
  }

  lemma W64()
    ensures Named(64, "LIKE", 31) && Named(65, "CASCADE", 65)
  {
    hide Named;
    assert Named(64, "LIKE", 31) by { Spell(4, 12, "LIKE", 31, 13, 12, 4); }
    assert Named(65, "CASCADE", 65) by { Spell(5, 0, "CASCADE", 65, 13, 16, 2); }
  }

  lemma W66()
    ensures Named(66, "ASC", 61) && Named(67, "DELETE", 109)
  {
    hide Named;
    assert Named(66, "ASC", 61) by { Spell(5, 1, "ASC", 61, 13, 17, 1); }
    assert Named(67, "DELETE", 109) by { Spell(5, 2, "DELETE", 109, 14, 3, 6); }
  }

  lemma W68()
    ensures Named(68, "CASE", 136)
  {
    hide Named;
    assert Named(68, "CASE", 136) by { Spell(5, 3, "CASE", 136, 14, 9, 4); }
  }

  lemma W69()
    ensures Named(69, "COLLATE", 53)
  {
    hide Named;
    assert Named(69, "COLLATE", 53) by { Spell(5, 4, "COLLATE", 53, 14, 13, 5); }
  }

  lemma W70()
    ensures Named(70, "CREATE", 17)
  {
    hide Named;
    assert Named(70, "CREATE", 17) by { Spell(5, 5, "CREATE", 17, 15, 2, 6); }
  }

  lemma W71()
    ensures Named(71, "CURRENT_DATE", 95)
  {
    hide Named;
    assert Named(71, "CURRENT_DATE", 95) by { Spell(5, 6, "CURRENT_DATE", 95, 15, 8, 10); }
  }

  lemma W72()
    ensures Named(72, "DETACH", 71) && Named(73, "IMMEDIATE", 8)
  {
    hide Named;
    assert Named(72, "DETACH", 71) by { Spell(5, 7, "DETACH", 71, 16, 2, 6); }
    assert Named(73, "IMMEDIATE", 8) by { Spell(5, 8, "IMMEDIATE", 8, 16, 8, 9); }
  }

  lemma W74()
    ensures Named(74, "JOIN", 124) && Named(75, "INSERT", 108)
  {
    hide Named;
    assert Named(74, "JOIN", 124) by { Spell(5, 9, "JOIN", 124, 16, 17, 1); }
    assert Named(75, "INSERT", 108) by { Spell(5, 10, "INSERT", 108, 17, 1, 6); }
  }

  lemma W76()
    ensures Named(76, "MATCH", 30) && Named(77, "PLAN", 4)
  {
    hide Named;
    assert Named(76, "MATCH", 30) by { Spell(5, 11, "MATCH", 30, 17, 7, 5); }
    assert Named(77, "PLAN", 4) by { Spell(5, 12, "PLAN", 4, 17, 12, 4); }
  }

  lemma W78()
    ensures Named(78, "ANALYZE", 60) && Named(79, "PRAGMA", 82)
  {
    hide Named;
    assert Named(78, "ANALYZE", 60) by { Spell(6, 0, "ANALYZE", 60, 17, 14, 4); }
    assert Named(79, "PRAGMA", 82) by { Spell(6, 1, "PRAGMA", 82, 18, 3, 6); }
  }

  lemma W80()
    ensures Named(80, "ABORT", 57) && Named(81, "VALUES", 120)
  {
    hide Named;
    assert Named(80, "ABORT", 57) by { Spell(6, 2, "ABORT", 57, 18, 8, 5); }
    assert Named(81, "VALUES", 120) by { Spell(6, 3, "VALUES", 120, 18, 13, 5); }
  }

  lemma W82()
    ensures Named(82, "VIRTUAL", 91) && Named(83, "LIMIT", 129)
  {
    hide Named;
    assert Named(82, "VIRTUAL", 91) by { Spell(6, 4, "VIRTUAL", 91, 19, 1, 7); }
    assert Named(83, "LIMIT", 129) by { Spell(6, 5, "LIMIT", 129, 19, 7, 5); }
  }

  lemma W84()
    ensures Named(84, "WHEN", 137) && Named(85, "WHERE", 130)
  {
    hide Named;
    assert Named(84, "WHEN", 137) by { Spell(6, 6, "WHEN", 137, 19, 12, 4); }
    assert Named(85, "WHERE", 130) by { Spell(6, 7, "WHERE", 130, 19, 16, 2); }
  }

  lemma W86()
    ensures Named(86, "RENAME", 94) && Named(87, "AFTER", 59)
  {
    hide Named;
    assert Named(86, "RENAME", 94) by { Spell(6, 8, "RENAME", 94, 20, 1, 6); }
    assert Named(87, "AFTER", 59) by { Spell(6, 9, "AFTER", 59, 20, 7, 5); }
  }

  lemma W88()
    ensures Named(88, "REPLACE", 85) && Named(89, "AND", 28)
  {
    hide Named;
    assert Named(88, "REPLACE", 85) by { Spell(6, 10, "REPLACE", 85, 20, 11, 7); }
    assert Named(89, "AND", 28) by { Spell(6, 11, "AND", 28, 21, 0, 3); }
  }

  lemma W90()
    ensures Named(90, "DEFAULT", 100)
  {
    hide Named;
    assert Named(90, "DEFAULT", 100) by { Spell(6, 12, "DEFAULT", 100, 21, 2, 7); }
  }

  lemma W91()
    ensures Named(91, "AUTOINCREMENT", 106)
  {
    hide Named;
    assert Named(91, "AUTOINCREMENT", 106) by { Spell(7, 0, "AUTOINCREMENT", 106, 21, 9, 9); }
  }

  lemma W92()
    ensures Named(92, "TO", 15) && Named(93, "IN", 33) && Named(94, "CAST", 66)
  {
    hide Named;
    assert Named(92, "TO", 15) by { Spell(7, 1, "TO", 15, 21, 11, 2); }
    assert Named(93, "IN", 33) by { Spell(7, 2, "IN", 33, 21, 13, 2); }
    assert Named(94, "CAST", 66) by { Spell(7, 3, "CAST", 66, 22, 4, 4); }
  }

  lemma W95()
    ensures Named(95, "COLUMN", 67) && Named(96, "COMMIT", 10)
  {
    hide Named;
    assert Named(95, "COLUMN", 67) by { Spell(7, 4, "COLUMN", 67, 22, 8, 6); }
    assert Named(96, "COMMIT", 10) by { Spell(7, 5, "COMMIT", 10, 22, 14, 4); }
  }

  lemma W97()
    ensures Named(97, "CONFLICT", 68) && Named(98, "CROSS", 98)
  {
    hide Named;
    assert Named(97, "CONFLICT", 68) by { Spell(7, 6, "CONFLICT", 68, 23, 2, 8); }
    assert Named(98, "CROSS", 98) by { Spell(7, 7, "CROSS", 98, 23, 10, 5); }
  }

  lemma W99()
    ensures Named(99, "CURRENT_TIMESTAMP", 95)
  {
    hide Named;
    assert Named(99, "CURRENT_TIMESTAMP", 95) by { Spell(7, 8, "CURRENT_TIMESTAMP", 95, 23, 15, 3); }
  }

  lemma W100()
    ensures Named(100, "CURRENT_TIME", 95)
  {
    hide Named;
    assert Named(100, "CURRENT_TIME", 95) by { Spell(7, 9, "CURRENT_TIME", 95, 23, 15, 3); }
  }

  lemma W101()
    ensures Named(101, "PRIMARY", 102)
  {
    hide Named;
    assert Named(101, "PRIMARY", 102) by { Spell(7, 10, "PRIMARY", 102, 24, 13, 5); }
  }

  lemma W102()
    ensures Named(102, "DEFERRED", 7) && Named(103, "DISTINCT", 121)
  {
    hide Named;
    assert Named(102, "DEFERRED", 7) by { Spell(7, 11, "DEFERRED", 7, 25, 2, 8); }
    assert Named(103, "DISTINCT", 121) by { Spell(7, 12, "DISTINCT", 121, 25, 9, 8); }
  }

  lemma W104()
    ensures Named(104, "IS", 29) && Named(105, "DROP", 114) && Named(106, "FAIL", 73)
  {
    hide Named;
    assert Named(104, "IS", 29) by { Spell(8, 0, "IS", 29, 25, 10, 2); }
    assert Named(105, "DROP", 114) by { Spell(8, 1, "DROP", 114, 25, 17, 1); }
    assert Named(106, "FAIL", 73) by { Spell(8, 2, "FAIL", 73, 26, 3, 4); }
  }

  lemma W107()
    ensures Named(107, "FROM", 123)
  {
    hide Named;
    assert Named(107, "FROM", 123) by { Spell(8, 3, "FROM", 123, 26, 7, 4); }
  }

  lemma W108()
    ensures Named(108, "FULL", 98) && Named(109, "GLOB", 31)
  {
    hide Named;
    assert Named(108, "FULL", 98) by { Spell(8, 4, "FULL", 98, 26, 11, 4); }
    assert Named(109, "GLOB", 31) by { Spell(8, 5, "GLOB", 31, 26, 15, 3); }
  }

  lemma W110()
    ensures Named(110, "BY", 64) && Named(111, "IF", 18) && Named(112, "ISNULL", 34)
  {
    hide Named;
    assert Named(110, "BY", 64) by { Spell(8, 6, "BY", 64, 27, 0, 2); }
    assert Named(111, "IF", 18) by { Spell(8, 7, "IF", 18, 27, 2, 2); }
    assert Named(112, "ISNULL", 34) by { Spell(8, 8, "ISNULL", 34, 27, 4, 6); }
  }

  lemma W113()
    ensures Named(113, "ORDER", 126) && Named(114, "RESTRICT", 86)
  {
    hide Named;
    assert Named(113, "ORDER", 126) by { Spell(8, 9, "ORDER", 126, 27, 10, 5); }
    assert Named(114, "RESTRICT", 86) by { Spell(8, 10, "RESTRICT", 86, 27, 14, 4); }
  }

  lemma W115()
    ensures Named(115, "RIGHT", 98) && Named(116, "ROLLBACK", 12)
  {
    hide Named;
    assert Named(115, "RIGHT", 98) by { Spell(8, 11, "RIGHT", 98, 28, 4, 5); }
    assert Named(116, "ROLLBACK", 12) by { Spell(8, 12, "ROLLBACK", 12, 28, 9, 8); }
  }

  lemma W117()
    ensures Named(117, "ROW", 87) && Named(118, "UNION", 115)
  {
    hide Named;
    assert Named(117, "ROW", 87) by { Spell(9, 0, "ROW", 87, 28, 17, 1); }
    assert Named(118, "UNION", 115) by { Spell(9, 1, "UNION", 115, 29, 2, 5); }
  }

  lemma W119()
    ensures Named(119, "USING", 125) && Named(120, "VACUUM", 89)
  {
    hide Named;
    assert Named(119, "USING", 125) by { Spell(9, 2, "USING", 125, 29, 7, 5); }
    assert Named(120, "VACUUM", 89) by { Spell(9, 3, "VACUUM", 89, 29, 12, 6); }
  }

  lemma W121()
    ensures Named(121, "VIEW", 90) && Named(122, "INITIALLY", 76)
  {
    hide Named;
    assert Named(121, "VIEW", 90) by { Spell(9, 4, "VIEW", 90, 30, 0, 4); }
    assert Named(122, "INITIALLY", 76) by { Spell(9, 5, "INITIALLY", 76, 30, 4, 9); }
  }

  lemma W123()
    ensures Named(123, "ALL", 116)
  {
    hide Named;
    assert Named(123, "ALL", 116) by { Spell(9, 6, "ALL", 116, 30, 9, 3); }
  }

  // The keywords by name, each with its token code.
  lemma Names0()
    ensures Named(0, "REINDEX", 93) && Named(1, "INDEXED", 56) && Named(2, "INDEX", 140)
    ensures Named(3, "DESC", 70) && Named(4, "ESCAPE", 42) && Named(5, "EACH", 72)
    ensures Named(6, "CHECK", 104) && Named(7, "KEY", 79) && Named(8, "BEFORE", 63)
    ensures Named(9, "FOREIGN", 113) && Named(10, "FOR", 74) && Named(11, "IGNORE", 75)
    ensures Named(12, "REGEXP", 31) && Named(13, "EXPLAIN", 2) && Named(14, "INSTEAD", 77)
    ensures Named(15, "ADD", 142) && Named(16, "DATABASE", 69) && Named(17, "AS", 24)
    ensures Named(18, "SELECT", 119) && Named(19, "TABLE", 16) && Named(20, "LEFT", 98)
  {
    hide *;
    W0(); W2(); W4(); W6(); W8(); W10(); W12(); W14(); W16(); W18(); W20();
  }

  lemma Names1()
    ensures Named(21, "THEN", 138) && Named(22, "END", 11) && Named(23, "DEFERRABLE", 112)
    ensures Named(24, "ELSE", 139) && Named(25, "EXCEPT", 117) && Named(26, "TRANSACTION", 6)
    ensures Named(27, "ACTION", 58) && Named(28, "ON", 107) && Named(29, "NATURAL", 98)
    ensures Named(30, "ALTER", 141) && Named(31, "RAISE", 83) && Named(32, "EXCLUSIVE", 9)
    ensures Named(33, "EXISTS", 20) && Named(34, "SAVEPOINT", 13) && Named(35, "INTERSECT", 118)
    ensures Named(36, "TRIGGER", 88) && Named(37, "REFERENCES", 105) && Named(38, "CONSTRAINT", 99)
    ensures Named(39, "INTO", 131) && Named(40, "OFFSET", 81) && Named(41, "OF", 80)
  {
    hide *;
    W20(); W23(); W25(); W26(); W27(); W29(); W31(); W33(); W34(); W35(); W37(); W38(); W39(); W40(); W41();
  }

  lemma Names2()
    ensures Named(42, "SET", 111) && Named(43, "TEMPORARY", 21) && Named(44, "TEMP", 21)
    ensures Named(45, "OR", 27) && Named(46, "UNIQUE", 103) && Named(47, "QUERY", 3)
    ensures Named(48, "WITHOUT", 25) && Named(49, "WITH", 92) && Named(50, "OUTER", 98)
    ensures Named(51, "RELEASE", 14) && Named(52, "ATTACH", 62) && Named(53, "HAVING", 128)
    ensures Named(54, "GROUP", 127) && Named(55, "UPDATE", 110) && Named(56, "BEGIN", 5)
    ensures Named(57, "INNER", 98) && Named(58, "RECURSIVE", 84) && Named(59, "BETWEEN", 32)
    ensures Named(60, "NOTNULL", 35) && Named(61, "NOT", 19) && Named(62, "NO", 78)
  {
    hide *;
    W41(); W43(); W45(); W47(); W49(); W51(); W53(); W55(); W57(); W59(); W61();
  }

  lemma Names3()
    ensures Named(63, "NULL", 101) && Named(64, "LIKE", 31) && Named(65, "CASCADE", 65)
    ensures Named(66, "ASC", 61) && Named(67, "DELETE", 109) && Named(68, "CASE", 136)
    ensures Named(69, "COLLATE", 53) && Named(70, "CREATE", 17) && Named(71, "CURRENT_DATE", 95)
    ensures Named(72, "DETACH", 71) && Named(73, "IMMEDIATE", 8) && Named(74, "JOIN", 124)
    ensures Named(75, "INSERT", 108) && Named(76, "MATCH", 30) && Named(77, "PLAN", 4)
    ensures Named(78, "ANALYZE", 60) && Named(79, "PRAGMA", 82) && Named(80, "ABORT", 57)
    ensures Named(81, "VALUES", 120) && Named(82, "VIRTUAL", 91) && Named(83, "LIMIT", 129)
  {
    hide *;
    W61(); W64(); W66(); W68(); W69(); W70(); W71(); W72(); W74(); W76(); W78(); W80(); W82();
  }

  lemma Names4()
    ensures Named(84, "WHEN", 137) && Named(85, "WHERE", 130) && Named(86, "RENAME", 94)
    ensures Named(87, "AFTER", 59) && Named(88, "REPLACE", 85) && Named(89, "AND", 28)
    ensures Named(90, "DEFAULT", 100) && Named(91, "AUTOINCREMENT", 106) && Named(92, "TO", 15)
    ensures Named(93, "IN", 33) && Named(94, "CAST", 66) && Named(95, "COLUMN", 67)
    ensures Named(96, "COMMIT", 10) && Named(97, "CONFLICT", 68) && Named(98, "CROSS", 98)
    ensures Named(99, "CURRENT_TIMESTAMP", 95) && Named(100, "CURRENT_TIME", 95) && Named(101, "PRIMARY", 102)
    ensures Named(102, "DEFERRED", 7) && Named(103, "DISTINCT", 121) && Named(104, "IS", 29)
  {
    hide *;
    W84(); W86(); W88(); W90(); W91(); W92(); W95(); W97(); W99(); W100(); W101(); W102(); W104();
  }

  lemma Names5()
    ensures Named(105, "DROP", 114) && Named(106, "FAIL", 73) && Named(107, "FROM", 123)
    ensures Named(108, "FULL", 98) && Named(109, "GLOB", 31) && Named(110, "BY", 64)
    ensures Named(111, "IF", 18) && Named(112, "ISNULL", 34) && Named(113, "ORDER", 126)
    ensures Named(114, "RESTRICT", 86) && Named(115, "RIGHT", 98) && Named(116, "ROLLBACK", 12)
    ensures Named(117, "ROW", 87) && Named(118, "UNION", 115) && Named(119, "USING", 125)
    ensures Named(120, "VACUUM", 89) && Named(121, "VIEW", 90) && Named(122, "INITIALLY", 76)
    ensures Named(123, "ALL", 116)
  {
    hide *;
    W104(); W107(); W108(); W110(); W113(); W115(); W117(); W119(); W121(); W123();
  }

  /** Every keyword has a name among them. */
  lemma NameOf(k: nat) returns (w: string, code: nat)
    requires k < 124
    ensures Named(k, w, code)
  {
    hide *;
    Names0();
    Names1();
    Names2();
    Names3();
    Names4();
    Names5();
    w, code :| Named(k, w, code);
  }

  /** The word is `w` up to letter case. */
  predicate Reads(z: seq<byte>, w: string) {
    |z| == |w| && forall j | 0 <= j < |z| :: Upper(z[j]) as int == w[j] as int
  }

  lemma NamedIsWord(k: nat, w: string, code: nat, z: seq<byte>)
    requires Named(k, w, code) && k < SQL.Count() && SQL.Sized() && SQL.EntryOk(k)
    ensures CodeAt(k) == code && (Reads(z, w) <==> CaseEqual(z, SQL.Word(k)))
  {
    hide Bucket, IsWord, TextAt, NextAt, LenAt, OffsetAt, HashAt, CodeAt, Tables.OnChain, BucketOf, Upper;
    var v := SQL.Word(k);
    assert |v| == LenAt(k) == |w| by { assert SQL.len[k] == LenAt(k); }
    forall j | 0 <= j < |w|
      ensures v[j] as int == w[j] as int
    {
      WordLetter(k, j);
      assert LetterIs(OffsetAt(k) + j, w[j]);
    }
  }

  const TK_ID: nat := 55

  /** The recogniser over the shipped tables: the code of the keyword that the word spells in any letter case, and the
      code of an identifier for a word that spells none and has no DEL character. */
  method Sqlite3KeywordCode(z: seq<byte>) returns (id: nat)
    requires |z| < 0x8000_0000
    ensures forall k: nat, w, code | Named(k, w, code) :: Reads(z, w) ==> id == code
    ensures SQL.Valid() && forall k: nat | k < 124 :: SQL.EntryOk(k) && (CaseEqual(z, SQL.Word(k)) ==> id == CodeAt(k))
    ensures DEL !in z && (forall k: nat, w, code | Named(k, w, code) :: !Reads(z, w)) ==> id == 55
  {
    SqlChainsDiffer();
    id := KeywordOrId(SQL, z, TK_ID);
    hide NextAt, LenAt, OffsetAt, TextAt, HashAt, Bucket, Tables.Search, FoldedSearch, CaseEqual, Reads, Named;
    forall k: nat | k < 124
      ensures SQL.EntryOk(k) && (CaseEqual(z, SQL.Word(k)) ==> id == CodeAt(k))
    {
      EveryKeywordIsFiled(k);
      if CaseEqual(z, SQL.Word(k)) {
        SearchFindsKeyword(SQL, z, k);
      }
    }
    forall k: nat, w, code | Named(k, w, code)
      ensures Reads(z, w) ==> id == code
    {
      NamedIsWord(k, w, code, z);
    }
    if DEL !in z && forall k: nat, w, code | Named(k, w, code) :: !Reads(z, w) {
      SearchIsFoldedSearch(SQL, z, 124);
      FoldedSearchHits(SQL, z, 124);
      var r := SQL.Search(z, 124);
      if r >= 0 {
        var w, code := NameOf(r);
        NamedIsWord(r, w, code, z);
      }
    }
  }
}
