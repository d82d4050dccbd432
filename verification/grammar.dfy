/**
 * The two patch-name grammars of bigearthnet_common/constants.py, `BEN_S2_RE`
 * and `BEN_S1_RE`, which the library only ever uses through `fullmatch`.
 *
 * A pattern is a list of tokens: a literal character, or a character class
 * repeated between `lo` and `hi` times.  `MatchesFrom` is the meaning of a
 * regular expression (every repetition count is tried, as Python's
 * backtracking `re` does); `Scan` is the hand-written recogniser (it takes as
 * many characters as it can and never goes back).  The two agree on every
 * "greedy-safe" pattern, and both patch-name patterns are greedy-safe.
 *
 * The consecutive digit groups of the expressions (year, month, day and
 * hour, minute, second) are written as one repetition each:
 * `\d{4}\d{2}\d{2}` is `\d{8}` and `\d{1,2}\d{2}\d{2}` is `\d{5,6}`.
 */
module Grammar {

  /** The character classes used by the two expressions. `\d` and `\w` are read as ASCII. */
  datatype CharClass = Digit | Word | OneOf(chars: set<char>)

  /** A literal character, or `cls{lo,hi}`. */
  datatype Token = Lit(ch: char) | Rep(cls: CharClass, lo: nat, hi: nat)

  predicate IsDigit(c: char) { '0' <= c <= '9' }

  predicate InClass(cls: CharClass, c: char) {
    match cls
    case Digit => IsDigit(c)
    case Word => IsDigit(c) || 'a' <= c <= 'z' || 'A' <= c <= 'Z' || c == '_'
    case OneOf(cs) => c in cs
  }

  /** Every character of s[from..to] belongs to `cls`. */
  predicate AllIn(cls: CharClass, s: string, from: nat, to: nat)
    requires from <= to <= |s|
  {
    forall t :: from <= t < to ==> InClass(cls, s[t])
  }

  /** Regular-expression semantics: the tokens p[i..] match exactly s[j..]. */
  ghost predicate MatchesFrom(p: seq<Token>, i: nat, s: string, j: nat)
    requires i <= |p| && j <= |s|
    decreases |p| - i
  {
    if i == |p| then j == |s|
    else match p[i]
      case Lit(ch) => j < |s| && s[j] == ch && MatchesFrom(p, i + 1, s, j + 1)
      case Rep(cls, lo, hi) =>
        exists e :: j <= e <= |s| && lo <= e - j <= hi && AllIn(cls, s, j, e) && MatchesFrom(p, i + 1, s, e)
  }

  /** `re.fullmatch(p, s)` */
  ghost predicate Matches(p: seq<Token>, s: string) {
    MatchesFrom(p, 0, s, 0)
  }

  /**
   * The recogniser.  `c` counts the characters already taken by the
   * repetition p[i]; the scan takes one more while it may, and otherwise
   * closes the repetition and moves on to the next token.
   */
  predicate Scan(p: seq<Token>, i: nat, s: string, j: nat, c: nat)
    requires i <= |p| && j <= |s|
    decreases |p| - i, |s| - j
  {
    if i == |p| then j == |s|
    else match p[i]
      case Lit(ch) => j < |s| && s[j] == ch && Scan(p, i + 1, s, j + 1, 0)
      case Rep(cls, lo, hi) =>
        if c < hi && j < |s| && InClass(cls, s[j]) then Scan(p, i, s, j + 1, c + 1)
        else lo <= c && Scan(p, i + 1, s, j, 0)
  }

  predicate Recognises(p: seq<Token>, s: string) {
    Scan(p, 0, s, 0, 0)
  }

  /**
   * Taking the longest run never loses a match: every repetition either has
   * a fixed count, or ends the pattern, or is followed by a literal outside
   * its class.
   */
  predicate GreedySafe(p: seq<Token>) {
    forall i :: 0 <= i < |p| && p[i].Rep? ==>
      p[i].lo == p[i].hi || i + 1 == |p| || (p[i + 1].Lit? && !InClass(p[i].cls, p[i + 1].ch))
  }

  predicate EndsInLit(p: seq<Token>) {
    p != [] && p[|p| - 1].Lit?
  }

  // ---------------------------------------------------------------------
  // The recogniser agrees with the regular-expression semantics.

  /** Recogniser and expression agree on p[k..] for every suffix of s starting at or after j. */
  ghost predicate AgreeFrom(p: seq<Token>, k: nat, s: string, j: nat)
    requires k <= |p|
  {
    forall e :: j <= e <= |s| ==> (Scan(p, k, s, e, 0) <==> MatchesFrom(p, k, s, e))
  }

  /** Scanning a repetition with `c` characters taken so far. */
  lemma {:induction false} ScanRep(p: seq<Token>, i: nat, s: string, j: nat, c: nat)
    requires GreedySafe(p) && i < |p| && p[i].Rep? && j <= |s| && c <= p[i].hi
    requires AgreeFrom(p, i + 1, s, j)
    ensures Scan(p, i, s, j, c) <==>
      exists e :: j <= e <= |s| && p[i].lo <= c + (e - j) <= p[i].hi && AllIn(p[i].cls, s, j, e) && MatchesFrom(p, i + 1, s, e)
    decreases |s| - j
  {
    var cls, lo, hi := p[i].cls, p[i].lo, p[i].hi;
    if c < hi && j < |s| && InClass(cls, s[j]) {
      ScanRep(p, i, s, j + 1, c + 1);
      if Scan(p, i, s, j + 1, c + 1) {
        var e :| j + 1 <= e <= |s| && lo <= c + 1 + (e - (j + 1)) <= hi && AllIn(cls, s, j + 1, e) && MatchesFrom(p, i + 1, s, e);
        assert AllIn(cls, s, j, e);
      }
      if e :| j <= e <= |s| && lo <= c + (e - j) <= hi && AllIn(cls, s, j, e) && MatchesFrom(p, i + 1, s, e) {
        if e == j {
          assert false;
        }
        assert AllIn(cls, s, j + 1, e);
      }
    } else {
      if Scan(p, i, s, j, c) {
        assert Scan(p, i + 1, s, j, 0);
        assert AllIn(cls, s, j, j);
      }
      if e :| j <= e <= |s| && lo <= c + (e - j) <= hi && AllIn(cls, s, j, e) && MatchesFrom(p, i + 1, s, e) {
        if e != j {
          assert false;
        }
      }
    }
  }

  /** On a greedy-safe pattern the recogniser accepts exactly what the expression fully matches. */
  lemma {:induction false} ScanMatchesFrom(p: seq<Token>, i: nat, s: string, j: nat)
    requires GreedySafe(p) && i <= |p| && j <= |s|
    ensures Scan(p, i, s, j, 0) <==> MatchesFrom(p, i, s, j)
    decreases |p| - i
  {
    if i < |p| {
      var k := i + 1;
      forall e | j <= e <= |s|
        ensures Scan(p, k, s, e, 0) <==> MatchesFrom(p, k, s, e)
      {
        ScanMatchesFrom(p, k, s, e);
      }
      if p[i].Rep? {
        ScanRep(p, i, s, j, 0);
      }
    }
  }

  lemma RecognisesIffMatches(p: seq<Token>, s: string)
    requires GreedySafe(p)
    ensures Recognises(p, s) <==> Matches(p, s)
  {
    ScanMatchesFrom(p, 0, s, 0);
  }

  // ---------------------------------------------------------------------
  // Scanning a concatenation, piece by piece.

  /** A pattern ending in a literal cannot be finished once the input is exhausted. */
  lemma {:induction false} NoScanAtEnd(p: seq<Token>, i: nat, s: string, c: nat)
    requires EndsInLit(p) && i < |p|
    ensures !Scan(p, i, s, |s|, c)
    decreases |p| - i
  {
    if p[i].Rep? {
      NoScanAtEnd(p, i + 1, s, 0);
    }
  }

  /** Scanning the second half of a concatenation is scanning the second pattern alone. */
  lemma {:induction false} ScanShift(p1: seq<Token>, p2: seq<Token>, s1: string, s2: string, i: nat, j: nat, c: nat)
    requires i <= |p2| && j <= |s2|
    ensures Scan(p1 + p2, |p1| + i, s1 + s2, |s1| + j, c) == Scan(p2, i, s2, j, c)
    decreases |p2| - i, |s2| - j
  {
    if i < |p2| {
      assert (p1 + p2)[|p1| + i] == p2[i];
      if j < |s2| {
        assert (s1 + s2)[|s1| + j] == s2[j];
      }
      match p2[i]
      case Lit(ch) =>
        if j < |s2| {
          ScanShift(p1, p2, s1, s2, i + 1, j + 1, 0);
        }
      case Rep(cls, lo, hi) =>
        if c < hi && j < |s2| && InClass(cls, s2[j]) {
          ScanShift(p1, p2, s1, s2, i, j + 1, c + 1);
        } else {
          ScanShift(p1, p2, s1, s2, i + 1, j, 0);
        }
    }
  }

  /**
   * Once a pattern ending in a literal has recognised a prefix, the
   * concatenated pattern recognises the whole input exactly when the second
   * pattern recognises the rest.
   */
  lemma {:induction false} ScanAppendFrom(p1: seq<Token>, p2: seq<Token>, s1: string, s2: string, i: nat, j: nat, c: nat)
    requires EndsInLit(p1)
    requires i <= |p1| && j <= |s1| && (i == |p1| ==> c == 0)
    requires Scan(p1, i, s1, j, c)
    ensures Scan(p1 + p2, i, s1 + s2, j, c) == Scan(p2, 0, s2, 0, 0)
    decreases |p1| - i, |s1| - j
  {
    if i == |p1| {
      ScanShift(p1, p2, s1, s2, 0, 0, 0);
    } else {
      assert (p1 + p2)[i] == p1[i];
      if j < |s1| {
        assert (s1 + s2)[j] == s1[j];
      }
      match p1[i]
      case Lit(ch) =>
        ScanAppendFrom(p1, p2, s1, s2, i + 1, j + 1, 0);
      case Rep(cls, lo, hi) =>
        if c < hi && j < |s1| && InClass(cls, s1[j]) {
          ScanAppendFrom(p1, p2, s1, s2, i, j + 1, c + 1);
        } else {
          if j == |s1| {
            NoScanAtEnd(p1, i + 1, s1, 0);
            assert false;
          }
          ScanAppendFrom(p1, p2, s1, s2, i + 1, j, 0);
        }
    }
  }

  lemma ScanAppend(p1: seq<Token>, p2: seq<Token>, s1: string, s2: string)
    requires EndsInLit(p1) && Recognises(p1, s1)
    ensures Recognises(p1 + p2, s1 + s2) == Recognises(p2, s2)
  {
    ScanAppendFrom(p1, p2, s1, s2, 0, 0, 0);
  }

  lemma GreedySafeAppend(p1: seq<Token>, p2: seq<Token>)
    requires EndsInLit(p1) && GreedySafe(p1) && GreedySafe(p2)
    ensures GreedySafe(p1 + p2)
  {
    var p := p1 + p2;
    forall i | 0 <= i < |p| && p[i].Rep?
      ensures p[i].lo == p[i].hi || i + 1 == |p| || (p[i + 1].Lit? && !InClass(p[i].cls, p[i + 1].ch))
    {
      if i < |p1| {
        assert p[i] == p1[i];
        assert i + 1 < |p1|;
        assert p[i + 1] == p1[i + 1];
      } else {
        assert p[i] == p2[i - |p1|];
        if i + 1 < |p| {
          assert p[i + 1] == p2[i + 1 - |p1|];
        }
      }
    }
  }

  /** A literal token consumes exactly its character. */
  lemma ScanLit(p: seq<Token>, i: nat, s: string, j: nat, c: nat)
    requires i < |p| && p[i].Lit? && j <= |s| && Scan(p, i, s, j, c)
    ensures j < |s| && s[j] == p[i].ch && Scan(p, i + 1, s, j + 1, 0)
  {
  }

  /** A repetition `cls{1}` consumes exactly one character of its class. */
  lemma ScanSingle(p: seq<Token>, i: nat, s: string, j: nat)
    requires i < |p| && p[i].Rep? && p[i].lo == p[i].hi == 1 && j <= |s| && Scan(p, i, s, j, 0)
    ensures j < |s| && InClass(p[i].cls, s[j]) && Scan(p, i + 1, s, j + 1, 0)
  {
    if j < |s| && InClass(p[i].cls, s[j]) {
      assert Scan(p, i, s, j + 1, 1);
    }
  }

  /** A recognised input ends in the class of the pattern's last repetition when that is not optional. */
  lemma {:induction false} ScanEndsInClass(p: seq<Token>, i: nat, s: string, j: nat, c: nat)
    requires p != [] && p[|p| - 1].Rep? && p[|p| - 1].lo >= 1
    requires i < |p| && j <= |s| && Scan(p, i, s, j, c)
    requires i == |p| - 1 && c >= 1 ==> j >= 1 && InClass(p[|p| - 1].cls, s[j - 1])
    ensures |s| >= 1 && InClass(p[|p| - 1].cls, s[|s| - 1])
    decreases |p| - i, |s| - j
  {
    match p[i]
    case Lit(ch) =>
      ScanEndsInClass(p, i + 1, s, j + 1, 0);
    case Rep(cls, lo, hi) =>
      if c < hi && j < |s| && InClass(cls, s[j]) {
        ScanEndsInClass(p, i, s, j + 1, c + 1);
      } else if i + 1 < |p| {
        ScanEndsInClass(p, i + 1, s, j, 0);
      }
  }

  // ---------------------------------------------------------------------
  // The two patch-name patterns, assembled from pieces that each end in a literal.

  const S2_HEAD: seq<Token> := [Lit('S'), Lit('2'), Rep(OneOf({'A', 'B'}), 1, 1), Lit('_'),
    Lit('M'), Lit('S'), Lit('I'), Lit('L'), Lit('2'), Lit('A'), Lit('_')]
  const S1_HEAD: seq<Token> := [Lit('S'), Lit('1'), Rep(OneOf({'A', 'B'}), 1, 1), Lit('_'),
    Lit('I'), Lit('W'), Lit('_')]
  const S1_PRODUCT: seq<Token> := [Lit('G'), Lit('R'), Lit('D'), Lit('H'), Lit('_'),
    Lit('1'), Lit('S'), Lit('D'), Lit('V'), Lit('_')]
  /** year, month and day, then `T` */
  const DATE: seq<Token> := [Rep(Digit, 8, 8), Lit('T')]
  /** hour (one or two digits), minute and second, then `_` */
  const TIME: seq<Token> := [Rep(Digit, 5, 6), Lit('_')]
  /** the Sentinel-2 L1C tile area of a Sentinel-1 name, then `_` */
  const TILE: seq<Token> := [Rep(Word, 5, 5), Lit('_')]
  /** horizontal and vertical patch id */
  const IDS: seq<Token> := [Rep(Digit, 1, 2), Lit('_'), Rep(Digit, 1, 2)]

  /** `S2[AB]_MSIL2A_\d{8}T\d{5,6}_\d{1,2}_\d{1,2}` */
  const BEN_S2_RE: seq<Token> := S2_HEAD + DATE + TIME + IDS
  /** `S1[AB]_IW_GRDH_1SDV_\d{8}T\d{5,6}_\w{5}_\d{1,2}_\d{1,2}` */
  const BEN_S1_RE: seq<Token> := S1_HEAD + S1_PRODUCT + DATE + TIME + TILE + IDS

  /** `is_s2_patch`: the name fully matches `BEN_S2_RE`. */
  predicate IsS2Patch(name: string) {
    Recognises(BEN_S2_RE, name)
  }

  /** `is_s1_patch`: the name fully matches `BEN_S1_RE`. */
  predicate IsS1Patch(name: string) {
    Recognises(BEN_S1_RE, name)
  }

  lemma PatternsGreedySafe()
    ensures GreedySafe(BEN_S2_RE) && GreedySafe(BEN_S1_RE)
  {
    assert GreedySafe(S2_HEAD) && GreedySafe(S1_HEAD) && GreedySafe(S1_PRODUCT);
    assert GreedySafe(DATE) && GreedySafe(TIME) && GreedySafe(TILE) && GreedySafe(IDS);
    GreedySafeAppend(S2_HEAD, DATE);
    GreedySafeAppend(S2_HEAD + DATE, TIME);
    GreedySafeAppend(S2_HEAD + DATE + TIME, IDS);
    GreedySafeAppend(S1_HEAD, S1_PRODUCT);
    GreedySafeAppend(S1_HEAD + S1_PRODUCT, DATE);
    GreedySafeAppend(S1_HEAD + S1_PRODUCT + DATE, TIME);
    GreedySafeAppend(S1_HEAD + S1_PRODUCT + DATE + TIME, TILE);
    GreedySafeAppend(S1_HEAD + S1_PRODUCT + DATE + TIME + TILE, IDS);
  }

  /** The recognisers decide exactly the full matches of the two expressions. */
  lemma IsPatchIffFullMatch(name: string)
    ensures IsS2Patch(name) <==> Matches(BEN_S2_RE, name)
    ensures IsS1Patch(name) <==> Matches(BEN_S1_RE, name)
  {
    PatternsGreedySafe();
    RecognisesIffMatches(BEN_S2_RE, name);
    RecognisesIffMatches(BEN_S1_RE, name);
  }

  /** Every Sentinel-2 name starts with `S2`, every Sentinel-1 name with `S1`. */
  lemma PatchPrefixes(name: string)
    ensures IsS2Patch(name) ==> |name| >= 3 && name[..2] == "S2" && name[2] in {'A', 'B'}
    ensures IsS1Patch(name) ==> |name| >= 3 && name[..2] == "S1" && name[2] in {'A', 'B'}
  {
    if IsS2Patch(name) {
      assert BEN_S2_RE[0] == Lit('S') && BEN_S2_RE[1] == Lit('2') && BEN_S2_RE[2] == Rep(OneOf({'A', 'B'}), 1, 1);
      ScanLit(BEN_S2_RE, 0, name, 0, 0);
      ScanLit(BEN_S2_RE, 1, name, 1, 0);
      ScanSingle(BEN_S2_RE, 2, name, 2);
    }
    if IsS1Patch(name) {
      assert BEN_S1_RE[0] == Lit('S') && BEN_S1_RE[1] == Lit('1') && BEN_S1_RE[2] == Rep(OneOf({'A', 'B'}), 1, 1);
      ScanLit(BEN_S1_RE, 0, name, 0, 0);
      ScanLit(BEN_S1_RE, 1, name, 1, 0);
      ScanSingle(BEN_S1_RE, 2, name, 2);
    }
  }

  /** No name matches both grammars. */
  lemma GrammarsDisjoint(name: string)
    ensures !(IsS2Patch(name) && IsS1Patch(name))
  {
    PatchPrefixes(name);
  }

  /** Both kinds of patch name end in a digit (the vertical patch id). */
  lemma PatchEndsInDigit(name: string)
    requires IsS2Patch(name) || IsS1Patch(name)
    ensures |name| >= 1 && IsDigit(name[|name| - 1])
  {
    if IsS2Patch(name) {
      ScanEndsInClass(BEN_S2_RE, 0, name, 0, 0);
    } else {
      ScanEndsInClass(BEN_S1_RE, 0, name, 0, 0);
    }
  }

  // ---------------------------------------------------------------------
  // The names exercised by tests/test_constants.py.

  /** A Sentinel-2 name assembled from pieces that each match their part of the pattern. */
  lemma S2Assembled(head: string, date: string, time: string, ids: string)
    requires Recognises(S2_HEAD, head) && Recognises(DATE, date) && Recognises(TIME, time)
    requires Recognises(IDS, ids)
    ensures IsS2Patch(head + date + time + ids)
  {
    ScanAppend(S2_HEAD, DATE, head, date);
    ScanAppend(S2_HEAD + DATE, TIME, head + date, time);
    ScanAppend(S2_HEAD + DATE + TIME, IDS, head + date + time, ids);
  }

  /** A Sentinel-1 name assembled from pieces that each match their part of the pattern. */
  lemma S1Assembled(head: string, product: string, date: string, time: string, tile: string, ids: string)
    requires Recognises(S1_HEAD, head) && Recognises(S1_PRODUCT, product) && Recognises(DATE, date)
    requires Recognises(TIME, time) && Recognises(TILE, tile) && Recognises(IDS, ids)
    ensures IsS1Patch(head + product + date + time + tile + ids)
  {
    ScanAppend(S1_HEAD, S1_PRODUCT, head, product);
    ScanAppend(S1_HEAD + S1_PRODUCT, DATE, head + product, date);
    ScanAppend(S1_HEAD + S1_PRODUCT + DATE, TIME, head + product + date, time);
    ScanAppend(S1_HEAD + S1_PRODUCT + DATE + TIME, TILE, head + product + date + time, tile);
    ScanAppend(S1_HEAD + S1_PRODUCT + DATE + TIME + TILE, IDS, head + product + date + time + tile, ids);
  }

  lemma S2Accepts()
    ensures IsS2Patch("S2A_MSIL2A_" + "20170617T" + "113321_" + "4_55")
    ensures IsS2Patch("S2B_MSIL2A_" + "20170924T" + "93020_" + "41_73")
  {
    assert Recognises(S2_HEAD, "S2A_MSIL2A_") && Recognises(DATE, "20170617T");
    assert Recognises(TIME, "113321_") && Recognises(IDS, "4_55");
    S2Assembled("S2A_MSIL2A_", "20170617T", "113321_", "4_55");
    assert Recognises(S2_HEAD, "S2B_MSIL2A_") && Recognises(DATE, "20170924T");
    assert Recognises(TIME, "93020_") && Recognises(IDS, "41_73");
    S2Assembled("S2B_MSIL2A_", "20170924T", "93020_", "41_73");
  }

  lemma S2Rejects()
    ensures !IsS2Patch("S2C_MSIL2A_" + "20170617T" + "113321_" + "4_55")
    ensures !IsS2Patch("S2A_MSIL2A_" + "20170617T" + "113321_" + "55")
  {
    PatchPrefixes("S2C_MSIL2A_" + "20170617T" + "113321_" + "4_55");
    ScanAppend(S2_HEAD, DATE, "S2A_MSIL2A_", "20170617T");
    ScanAppend(S2_HEAD + DATE, TIME, "S2A_MSIL2A_" + "20170617T", "113321_");
    ScanAppend(S2_HEAD + DATE + TIME, IDS, "S2A_MSIL2A_" + "20170617T" + "113321_", "55");
  }

  /** The pieces shared by the Sentinel-1 names of the tests. */
  lemma S1SharedPieces()
    ensures Recognises(S1_HEAD, "S1A_IW_") && Recognises(S1_PRODUCT, "GRDH_1SDV_")
    ensures Recognises(DATE, "20170613T") && Recognises(TIME, "165043_")
  {
  }

  lemma S1Accepts()
    ensures IsS1Patch("S1A_IW_" + "GRDH_1SDV_" + "20170613T" + "165043_" + "33UUP_" + "61_39")
    ensures IsS1Patch("S1A_IW_" + "GRDH_1SDV_" + "20170613T" + "165043_" + "33UUP_" + "61_3")
    ensures IsS1Patch("S1A_IW_" + "GRDH_1SDV_" + "20170613T" + "165043_" + "33UVP_" + "61_39")
  {
    S1SharedPieces();
    assert Recognises(TILE, "33UUP_") && Recognises(TILE, "33UVP_");
    assert Recognises(IDS, "61_39") && Recognises(IDS, "61_3");
    S1Assembled("S1A_IW_", "GRDH_1SDV_", "20170613T", "165043_", "33UUP_", "61_39");
    S1Assembled("S1A_IW_", "GRDH_1SDV_", "20170613T", "165043_", "33UUP_", "61_3");
    S1Assembled("S1A_IW_", "GRDH_1SDV_", "20170613T", "165043_", "33UVP_", "61_39");
  }

  lemma S1Rejects()
    ensures !IsS1Patch("S1A_IW_" + "GRDH_1SDV_" + "20170613T" + "165043_" + "33UUP_" + "61")
    ensures !IsS1Patch("S2A_IW_" + "GRDH_1SDV_" + "20170613T" + "165043_" + "33UUP_" + "61")
  {
    PatchPrefixes("S2A_IW_" + "GRDH_1SDV_" + "20170613T" + "165043_" + "33UUP_" + "61");
    S1SharedPieces();
    var prefix := "S1A_IW_" + "GRDH_1SDV_" + "20170613T" + "165043_";
    ScanAppend(S1_HEAD, S1_PRODUCT, "S1A_IW_", "GRDH_1SDV_");
    ScanAppend(S1_HEAD + S1_PRODUCT, DATE, "S1A_IW_" + "GRDH_1SDV_", "20170613T");
    ScanAppend(S1_HEAD + S1_PRODUCT + DATE, TIME, "S1A_IW_" + "GRDH_1SDV_" + "20170613T", "165043_");
    assert Recognises(TILE, "33UUP_") && !Recognises(IDS, "61");
    ScanAppend(S1_HEAD + S1_PRODUCT + DATE + TIME, TILE, prefix, "33UUP_");
    ScanAppend(S1_HEAD + S1_PRODUCT + DATE + TIME + TILE, IDS, prefix + "33UUP_", "61");
  }
}
