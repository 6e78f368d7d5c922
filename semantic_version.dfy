/**
 * The library's partial semantic-versioning: a version string is cut on `.`, `-` and `+`,
 * the first three pieces are read as major, minor and patch, and versions are ordered
 * lexicographically on that triple. Pre-release and build information is ignored.
 */
module SemanticVersions {
  import opened Wrappers
  import opened Text

  /** The characters a version string is split on. */
  const VERSION_DELIMITERS: set<char> := {'.', '-', '+'}

  /** Piece `index` of a split version string read as an Int; null when missing or not an integer. */
  function PieceValue(pieces: seq<string>, index: nat): Option<Int32> {
    if index < |pieces| then ToIntOrNull(pieces[index]) else None
  }

  /** Strict lexicographic order on (major, minor, patch) triples. */
  predicate LexLess(a: (int, int, int), b: (int, int, int)) {
    a.0 < b.0 || (a.0 == b.0 && (a.1 < b.1 || (a.1 == b.1 && a.2 < b.2)))
  }

  /** Kotlin's `compareValues` on Ints: the sign of the comparison. */
  function CompareInts(a: int, b: int): int {
    if a < b then -1 else if a > b then 1 else 0
  }

  datatype SemanticVersion = SemanticVersion(versionString: string) {

    function Pieces(): seq<string> {
      Split(versionString, VERSION_DELIMITERS)
    }

    /** First piece as an Int, -1 when it is missing or not an integer. */
    function Major(): (major: Int32)
      ensures major >= -1
      ensures major == -1 <==> PieceValue(Pieces(), 0).None?
      ensures major != -1 ==> PieceValue(Pieces(), 0) == Some(major)
    {
      NonNegativePiece(Pieces()[0])
    }

    /** Second piece as an Int, 0 when it is missing or not an integer. */
    function Minor(): (minor: Int32)
      ensures minor >= 0
      ensures PieceValue(Pieces(), 1).Some? ==> minor == PieceValue(Pieces(), 1).value
      ensures PieceValue(Pieces(), 1).None? ==> minor == 0
    {
      var pieces := Pieces();
      if 1 < |pieces| then ToIntOrNull(pieces[1]).GetOr(0) else 0
    }

    /** Third piece as an Int, 0 when it is missing or not an integer. */
    function Patch(): (patch: Int32)
      ensures patch >= 0
      ensures PieceValue(Pieces(), 2).Some? ==> patch == PieceValue(Pieces(), 2).value
      ensures PieceValue(Pieces(), 2).None? ==> patch == 0
    {
      var pieces := Pieces();
      if 2 < |pieces| then ToIntOrNull(pieces[2]).GetOr(0) else 0
    }

    /** A version is valid when at least its major number could be read. */
    predicate Valid()
      ensures Valid() <==> PieceValue(Pieces(), 0).Some?
    {
      Major() > -1
    }

    function Key(): (int, int, int) {
      (Major(), Minor(), Patch())
    }

    /**
     * `compareBy(major, minor, patch)`: the first of the three comparisons that is not zero.
     * Its sign agrees with the lexicographic order of the triples.
     */
    function CompareTo(other: SemanticVersion): (c: int)
      ensures c == -1 || c == 0 || c == 1
      ensures c == 0 <==> Key() == other.Key()
      ensures c < 0 <==> LexLess(Key(), other.Key())
      ensures c > 0 <==> LexLess(other.Key(), Key())
    {
      var major := CompareInts(Major(), other.Major());
      if major != 0 then major
      else
        var minor := CompareInts(Minor(), other.Minor());
        if minor != 0 then minor else CompareInts(Patch(), other.Patch())
    }

    /** "major.minor.patch" as read, not the original text. */
    function ToString(): (s: string)
      ensures Valid() ==> Split(s, VERSION_DELIMITERS) == [IntToString(Major()), IntToString(Minor()), IntToString(Patch())]
    {
      var ma, mi, pa := IntToString(Major()), IntToString(Minor()), IntToString(Patch());
      var s := ma + "." + mi + "." + pa;
      assert Valid() ==> Split(s, VERSION_DELIMITERS) == [ma, mi, pa] by {
        if Valid() {
          DigitsFree(ma);
          DigitsFree(mi);
          DigitsFree(pa);
          assert s == ma + ['.'] + (mi + ['.'] + pa);
          SplitHead(ma, '.', mi + ['.'] + pa, VERSION_DELIMITERS);
          SplitHead(mi, '.', pa, VERSION_DELIMITERS);
          SplitFree(pa, VERSION_DELIMITERS);
        }
      }
      s
    }
  }

  /**
   * A piece never carries a sign: `-` and `+` are delimiters, so `toIntOrNull` on a piece is
   * either null or a non-negative number, and the -1 default cannot be confused with a parsed
   * value.
   */
  function NonNegativePiece(piece: string): (v: Int32)
    requires Free(piece, VERSION_DELIMITERS)
    ensures v >= -1
    ensures v == -1 <==> ToIntOrNull(piece).None?
    ensures v != -1 ==> ToIntOrNull(piece) == Some(v)
  {
    match ToIntOrNull(piece)
    case Some(n) =>
      assert |piece| >= 1 && piece[0] !in VERSION_DELIMITERS;
      n
    case None => -1
  }

  /** `a > b` in Kotlin. */
  predicate Greater(a: SemanticVersion, b: SemanticVersion) {
    a.CompareTo(b) > 0
  }

  /** `a >= b` in Kotlin. */
  predicate AtLeast(a: SemanticVersion, b: SemanticVersion) {
    a.CompareTo(b) >= 0
  }

  lemma {:induction false} DigitsValueOne(c: char)
    requires IsDigit(c)
    ensures DigitsValue([c]) == DigitValue(c)
  {
    assert [c][..0] == [];
  }

  lemma {:induction false} DigitsValueTwo(c: char, d: char)
    requires IsDigit(c) && IsDigit(d)
    ensures DigitsValue([c, d]) == 10 * DigitValue(c) + DigitValue(d)
  {
    assert [c, d][..1] == [c];
    DigitsValueOne(c);
  }

  /**
   * A version string made of three delimiter-free pieces and whatever follows a further
   * delimiter reads its numbers from exactly those three pieces.
   */
  lemma {:induction false} ReadsPieces(x: string, d1: char, y: string, d2: char, z: string, tail: string)
    requires Free(x, VERSION_DELIMITERS) && Free(y, VERSION_DELIMITERS) && Free(z, VERSION_DELIMITERS)
    requires d1 in VERSION_DELIMITERS && d2 in VERSION_DELIMITERS
    requires tail == [] || tail[0] in VERSION_DELIMITERS
    ensures var pieces := SemanticVersion(x + [d1] + y + [d2] + z + tail).Pieces();
      |pieces| >= 3 && pieces[0] == x && pieces[1] == y && pieces[2] == z
  {
    var D := VERSION_DELIMITERS;
    assert x + [d1] + y + [d2] + z + tail == x + [d1] + (y + [d2] + (z + tail));
    SplitHead(x, d1, y + [d2] + (z + tail), D);
    SplitHead(y, d2, z + tail, D);
    if tail == [] {
      assert z + tail == z;
      SplitFree(z, D);
    } else {
      assert z + tail == z + [tail[0]] + tail[1..];
      SplitHead(z, tail[0], tail[1..], D);
    }
  }

  lemma {:induction false} ParseDigits(s: string)
    requires |s| >= 1 && AllDigits(s) && IsInt32(DigitsValue(s))
    ensures ToIntOrNull(s) == Some(DigitsValue(s))
  {
  }

  lemma {:induction false} DigitsKey(x: string, d1: char, y: string, d2: char, z: string, tail: string)
    requires AllDigits(x) && AllDigits(y) && AllDigits(z) && |x| >= 1 && |y| >= 1 && |z| >= 1
    requires d1 in VERSION_DELIMITERS && d2 in VERSION_DELIMITERS
    requires tail == [] || tail[0] in VERSION_DELIMITERS
    requires IsInt32(DigitsValue(x)) && IsInt32(DigitsValue(y)) && IsInt32(DigitsValue(z))
    ensures SemanticVersion(x + [d1] + y + [d2] + z + tail).Key()
         == (DigitsValue(x), DigitsValue(y), DigitsValue(z))
  {
    ReadsPieces(x, d1, y, d2, z, tail);
    ParseDigits(x);
    ParseDigits(y);
    ParseDigits(z);
  }

  /** "4.3.8" reads as 4.3.8 and is valid. */
  lemma {:induction false} ParsesRelease()
    ensures SemanticVersion("4.3.8").Key() == (4, 3, 8)
    ensures SemanticVersion("4.3.8").Valid()
  {
    DigitsValueOne('4');
    DigitsValueOne('3');
    DigitsValueOne('8');
    assert "4.3.8" == "4" + ['.'] + "3" + ['.'] + "8" + [];
    DigitsKey("4", '.', "3", '.', "8", []);
  }

  /** A nightly build "4.4.0-nightly.2025-05-24" reads as 4.4.0 and is valid. */
  lemma {:induction false} ParsesNightly()
    ensures SemanticVersion("4.4.0-nightly.2025-05-24").Key() == (4, 4, 0)
    ensures SemanticVersion("4.4.0-nightly.2025-05-24").Valid()
  {
    DigitsValueOne('4');
    DigitsValueOne('0');
    assert "4.4.0-nightly.2025-05-24" == "4" + ['.'] + "4" + ['.'] + "0" + "-nightly.2025-05-24";
    DigitsKey("4", '.', "4", '.', "0", "-nightly.2025-05-24");
  }

  /** A fork's suffix: "3.5.19-qoto" reads as 3.5.19 and is valid. */
  lemma {:induction false} ParsesForkSuffix()
    ensures SemanticVersion("3.5.19-qoto").Key() == (3, 5, 19)
    ensures SemanticVersion("3.5.19-qoto").Valid()
  {
    DigitsValueOne('3');
    DigitsValueOne('5');
    DigitsValueTwo('1', '9');
    assert "3.5.19-qoto" == "3" + ['.'] + "5" + ['.'] + "19" + "-qoto";
    DigitsKey("3", '.', "5", '.', "19", "-qoto");
  }

  /** A leading "v" leaves the version invalid. */
  lemma {:induction false} RejectsLeadingV()
    ensures !SemanticVersion("v1.2.3").Valid()
  {
    assert "v1.2.3" == "v1" + ['.'] + "2" + ['.'] + "3" + [];
    ReadsPieces("v1", '.', "2", '.', "3", []);
    NotANumber("v1");
  }

  /** A string without any number is invalid. */
  lemma {:induction false} RejectsWord()
    ensures !SemanticVersion("foobar").Valid()
  {
    var word := "foobar";
    assert forall i | 0 <= i < |word| :: 'a' <= word[i] <= 'z';
    SplitFree(word, VERSION_DELIMITERS);
    NotANumber(word);
  }

  /** A major number beyond 32 bits is not an Int, so the version is invalid. */
  lemma {:induction false} RejectsOverflowingMajor()
    ensures !SemanticVersion("99999999999.0.0").Valid()
  {
    var big := "99999999999";
    assert AllDigits(big);
    DigitsFree(big);
    assert "99999999999.0.0" == big + ['.'] + "0" + ['.'] + "0" + [];
    ReadsPieces(big, '.', "0", '.', "0", []);
    Overflows(big);
  }

  /** Eleven or more digits without a leading zero exceed the 32-bit range. */
  lemma {:induction false} Overflows(s: string)
    requires |s| >= 11 && AllDigits(s) && s[0] != '0'
    ensures ToIntOrNull(s).None?
  {
    DigitsValueAtLeast(s);
    Pow10Grows(10, |s| - 1);
    assert Pow10(10) == 10000000000 by {
      assert Pow10(5) == 100000;
    }
  }

  lemma {:induction false} Pow10Grows(m: nat, n: nat)
    requires m <= n
    ensures Pow10(m) <= Pow10(n)
    decreases n
  {
    if m < n {
      Pow10Grows(m, n - 1);
    }
  }

  /** A run of digits starting with a non-zero digit is at least 10^(length-1). */
  lemma {:induction false} DigitsValueAtLeast(s: string)
    requires |s| >= 1 && AllDigits(s) && s[0] != '0'
    ensures DigitsValue(s) >= Pow10(|s| - 1)
    decreases |s|
  {
    if |s| == 1 {
      assert s[..0] == [];
    } else {
      var prefix := s[..|s| - 1];
      assert prefix[0] == s[0];
      DigitsValueAtLeast(prefix);
    }
  }

  function Pow10(n: nat): (p: nat)
    ensures p >= 1
  {
    if n == 0 then 1 else 10 * Pow10(n - 1)
  }

  /** Later pieces do not matter: extending a version of three or more pieces keeps its numbers. */
  lemma {:induction false} SuffixIgnored(s: string, c: char, suffix: string)
    requires |Split(s, VERSION_DELIMITERS)| >= 3 && c in VERSION_DELIMITERS
    ensures SemanticVersion(s + [c] + suffix).Key() == SemanticVersion(s).Key()
    ensures SemanticVersion(s + [c] + suffix).CompareTo(SemanticVersion(s)) == 0
  {
    SplitConcat(s, c, suffix, VERSION_DELIMITERS);
  }

  /** "4.3.8" and "4.3.8-x" compare equal. */
  lemma {:induction false} SuffixExample()
    ensures SemanticVersion("4.3.8-x").CompareTo(SemanticVersion("4.3.8")) == 0
  {
    var D := VERSION_DELIMITERS;
    assert "4.3.8" == "4" + ['.'] + ("3" + ['.'] + "8");
    SplitHead("4", '.', "3" + ['.'] + "8", D);
    SplitHead("3", '.', "8", D);
    SplitFree("8", D);
    assert "4.3.8-x" == "4.3.8" + ['-'] + "x";
    SuffixIgnored("4.3.8", '-', "x");
  }

  /** `compareTo` is a total preorder: reflexive, transitive and total, and its sign flips with its arguments. */
  lemma {:induction false} CompareIsTotalPreorder(a: SemanticVersion, b: SemanticVersion, c: SemanticVersion)
    ensures a.CompareTo(a) == 0
    ensures a.CompareTo(b) == -b.CompareTo(a)
    ensures AtLeast(a, b) || AtLeast(b, a)
    ensures AtLeast(a, b) && AtLeast(b, c) ==> AtLeast(a, c)
    ensures Greater(a, b) && AtLeast(b, c) ==> Greater(a, c)
  {
  }

  /** There is no special case for invalid versions: they sort below every valid one. */
  lemma {:induction false} InvalidBelowValid(invalid: SemanticVersion, valid: SemanticVersion)
    requires !invalid.Valid() && valid.Valid()
    ensures invalid.CompareTo(valid) == -1
    ensures Greater(valid, invalid)
  {
  }

  /** 4.0.0 > 1.3.0, and not the other way round. */
  lemma {:induction false} MajorDecidesOrder()
    ensures Greater(SemanticVersion("4.0.0"), SemanticVersion("1.3.0"))
    ensures !Greater(SemanticVersion("1.3.0"), SemanticVersion("4.0.0"))
  {
    OneDigitKey('4', '0', '0');
    OneDigitKey('1', '3', '0');
  }

  /** 1.3.0 > 1.2.4, and not the other way round. */
  lemma {:induction false} MinorDecidesOrder()
    ensures Greater(SemanticVersion("1.3.0"), SemanticVersion("1.2.4"))
    ensures !Greater(SemanticVersion("1.2.4"), SemanticVersion("1.3.0"))
  {
    OneDigitKey('1', '3', '0');
    OneDigitKey('1', '2', '4');
  }

  /** 1.2.4 > 1.2.3, and not the other way round. */
  lemma {:induction false} PatchDecidesOrder()
    ensures Greater(SemanticVersion("1.2.4"), SemanticVersion("1.2.3"))
    ensures !Greater(SemanticVersion("1.2.3"), SemanticVersion("1.2.4"))
  {
    OneDigitKey('1', '2', '4');
    OneDigitKey('1', '2', '3');
  }

  /** v > v is false while v >= v holds, for "1.2.3" as for every version. */
  lemma {:induction false} SelfComparison()
    ensures !Greater(SemanticVersion("1.2.3"), SemanticVersion("1.2.3"))
    ensures AtLeast(SemanticVersion("1.2.3"), SemanticVersion("1.2.3"))
  {
    OneDigitKey('1', '2', '3');
  }

  /** A version written as three one-digit numbers reads as those numbers. */
  lemma {:induction false} OneDigitKey(a: char, b: char, c: char)
    requires IsDigit(a) && IsDigit(b) && IsDigit(c)
    ensures SemanticVersion([a, '.', b, '.', c]).Key() == (DigitValue(a), DigitValue(b), DigitValue(c))
  {
    DigitsValueOne(a);
    DigitsValueOne(b);
    DigitsValueOne(c);
    assert [a, '.', b, '.', c] == [a] + ['.'] + [b] + ['.'] + [c] + [];
    DigitsKey([a], '.', [b], '.', [c], []);
  }

  /** Re-reading what `toString` printed for a valid version gives the same numbers. */
  lemma {:induction false} ToStringRoundTrip(v: SemanticVersion)
    requires v.Valid()
    ensures SemanticVersion(v.ToString()).Key() == v.Key()
    ensures SemanticVersion(v.ToString()).Valid()
  {
    var ma, mi, pa := IntToString(v.Major()), IntToString(v.Minor()), IntToString(v.Patch());
    DigitsFree(ma);
    DigitsFree(mi);
    DigitsFree(pa);
    assert v.ToString() == ma + ['.'] + mi + ['.'] + pa + [];
    ReadsPieces(ma, '.', mi, '.', pa, []);
    ParseRendered(v.Major());
    ParseRendered(v.Minor());
    ParseRendered(v.Patch());
  }

  /**
   * An invalid version prints as "-1.<minor>.<patch>"; its leading minus sign is a delimiter, so
   * re-reading that text gives major -1, minor 1 and the old minor as patch.
   */
  lemma {:induction false} InvalidToStringShifts(v: SemanticVersion)
    requires !v.Valid()
    ensures SemanticVersion(v.ToString()).Key() == (-1, 1, v.Minor())
  {
    var mi, pa := IntToString(v.Minor()), IntToString(v.Patch());
    DigitsFree(mi);
    assert IntToString(-1) == "-1";
    assert v.ToString() == [] + ['-'] + "1" + ['.'] + mi + (['.'] + pa);
    ReadsPieces([], '-', "1", '.', mi, ['.'] + pa);
    DigitsValueOne('1');
    ParseDigits("1");
    ParseRendered(v.Minor());
  }

  lemma {:induction false} DigitsFree(s: string)
    requires AllDigits(s)
    ensures Free(s, VERSION_DELIMITERS)
  {
  }
}
