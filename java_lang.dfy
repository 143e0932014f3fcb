/** The small part of the Java platform and of the library's argument checks
    that the scheduled-event code relies on: 64-bit longs, `Long.compare`,
    `Long.hashCode`, `String.trim`, `Character.isWhitespace`, and the three
    argument checks `notEmpty`, `notBlank` and `notLonger`. */
module JavaLang {
  import opened Wrappers

  const TWO_32: int := 0x1_0000_0000
  const TWO_63: int := 0x8000_0000_0000_0000
  const TWO_64: int := 0x1_0000_0000_0000_0000

  /** A Java `long`. Entity ids (snowflakes) and guild ids are longs. */
  type Long = x: int | -TWO_63 <= x < TWO_63

  /** A Java `int`. */
  type Int = x: int | -0x8000_0000 <= x < 0x8000_0000

  /** `Long.compare(a, b)`: -1, 0 or 1. Also used for instants, whose
      time-line comparison is modelled by its sign. */
  function Compare(a: int, b: int): (r: int)
    ensures -1 <= r <= 1
    ensures r < 0 <==> a < b
    ensures r == 0 <==> a == b
    ensures r > 0 <==> a > b
  {
    if a < b then -1 else if a == b then 0 else 1
  }

  /** Bitwise exclusive or of the low `width` bits of `a` and `b`. */
  function Xor(a: nat, b: nat, width: nat): (r: nat)
    ensures r < Pow2(width)
  {
    if width == 0 then 0
    else (if a % 2 == b % 2 then 0 else 1) + 2 * Xor(a / 2, b / 2, width - 1)
  }

  function Pow2(n: nat): (r: nat)
    ensures r >= 1
  {
    if n == 0 then 1 else 2 * Pow2(n - 1)
  }

  /** Exclusive or with zero keeps every bit that fits in the width. */
  lemma {:induction false} XorZero(a: nat, width: nat)
    requires a < Pow2(width)
    ensures Xor(a, 0, width) == a
  {
    if width > 0 {
      XorZero(a / 2, width - 1);
    }
  }

  /** `Long.hashCode(v)`, that is `(int)(v ^ (v >>> 32))`: the two 32-bit
      halves of the two's-complement value exclusive-or'ed, read back as a
      signed 32-bit int. */
  function LongHashCode(v: Long): (h: Int)
    ensures 0 <= v < 0x8000_0000 ==> h == v
    ensures v == -1 ==> h == 0
  {
    var u := if v < 0 then v + TWO_64 else v;
    var x := Xor(u % TWO_32, u / TWO_32, 32);
    assert Pow2(32) == TWO_32 by { Pow2Value(); }
    assert 0 <= v < 0x8000_0000 ==> x == v by {
      if 0 <= v < 0x8000_0000 {
        XorZero(v, 32);
      }
    }
    assert v == -1 ==> x == 0 by {
      if v == -1 {
        XorSelf(TWO_32 - 1, 32);
      }
    }
    if x < 0x8000_0000 then x else x - TWO_32
  }

  /** Exclusive or of a value with itself clears every bit. */
  lemma {:induction false} XorSelf(a: nat, width: nat)
    ensures Xor(a, a, width) == 0
  {
    if width > 0 {
      XorSelf(a / 2, width - 1);
    }
  }

  lemma {:induction false} Pow2Add(m: nat, n: nat)
    ensures Pow2(m + n) == Pow2(m) * Pow2(n)
  {
    if m > 0 {
      Pow2Add(m - 1, n);
    }
  }

  lemma Pow2Value()
    ensures Pow2(32) == TWO_32
  {
    assert Pow2(4) == 16;
    Pow2Add(4, 4);
    Pow2Add(8, 8);
    Pow2Add(16, 16);
  }

  /** The reasons the library's argument checks throw
      `IllegalArgumentException`. */
  datatype CheckError = NullArgument | EmptyArgument | BlankArgument | TooLong(limit: nat)

  /** `Character.isWhitespace` as of Java 9 (Unicode 6.3 and later, where
      U+180E is no longer a space separator): the ASCII and Unicode space, line and
      paragraph separators except the no-break spaces, and the control
      characters TAB, LF, VT, FF, CR and FS..US. */
  predicate IsWhitespace(c: char): (w: bool)
    ensures c == '\U{A0}' || c == '\U{2007}' || c == '\U{202F}' ==> !w
    ensures w ==> c <= '\U{3000}'
  {
    || c == ' ' || ('\t' <= c <= '\r') || ('\U{1C}' <= c <= '\U{1F}')
    || c == '\U{1680}' || ('\U{2000}' <= c <= '\U{2006}') || ('\U{2008}' <= c <= '\U{200A}')
    || c == '\U{2028}' || c == '\U{2029}' || c == '\U{205F}' || c == '\U{3000}'
  }

  /** A string is blank when every one of its characters is whitespace. */
  predicate IsBlank(s: string): (b: bool)
    ensures s == [] ==> b
    ensures b ==> '\U{A0}' !in s
  {
    forall i :: 0 <= i < |s| ==> IsWhitespace(s[i])
  }

  /** `Checks.notEmpty`: the argument is non-null and not empty. */
  function NotEmpty(s: Option<string>): (r: Option<CheckError>)
    ensures r == None <==> s.Some? && s.value != []
    ensures r == Some(NullArgument) <==> s.None?
  {
    match s
    case None => Some(NullArgument)
    case Some(v) => if v == [] then Some(EmptyArgument) else None
  }

  /** `Checks.notBlank`: the argument is non-null and not all whitespace. */
  function NotBlank(s: Option<string>): (r: Option<CheckError>)
    ensures r == None <==> s.Some? && !IsBlank(s.value)
    ensures r == None ==> s.value != []
    ensures r == Some(NullArgument) <==> s.None?
  {
    match s
    case None => Some(NullArgument)
    case Some(v) => if IsBlank(v) then Some(BlankArgument) else None
  }

  /** `String.length()`: the number of UTF-16 code units, one for each
      character of the basic multilingual plane and two (a surrogate pair)
      for each character above U+FFFF. */
  function Utf16Length(s: string): (n: nat)
    ensures |s| <= n <= 2 * |s|
  {
    if s == [] then 0 else (if s[0] > '\U{FFFF}' then 2 else 1) + Utf16Length(s[1..])
  }

  /** A string of basic-plane characters has one code unit per character. */
  lemma {:induction false} BasicPlaneLength(s: string)
    requires forall i :: 0 <= i < |s| ==> s[i] <= '\U{FFFF}'
    ensures Utf16Length(s) == |s|
  {
    if s != [] {
      BasicPlaneLength(s[1..]);
    }
  }

  /** A character above U+FFFF is one character but two code units. */
  lemma SupplementaryCountsTwice()
    ensures |"\U{1F600}"| == 1 && Utf16Length("\U{1F600}") == 2
  {
    assert "\U{1F600}"[1..] == [];
  }

  /** `Checks.notLonger`: the `String.length()` of the argument is at most
      `n`. */
  function NotLonger(s: string, n: nat): (r: Option<CheckError>)
    ensures r == None <==> Utf16Length(s) <= n
    ensures r != None ==> r == Some(TooLong(n))
  {
    if Utf16Length(s) <= n then None else Some(TooLong(n))
  }

  /** Characters `String.trim` removes: every char up to U+0020. */
  predicate IsTrimmable(c: char)
  {
    c <= ' '
  }

  function StripLeading(s: string): (r: string)
    ensures |r| <= |s| && r == s[|s| - |r|..]
    ensures r == [] || !IsTrimmable(r[0])
    ensures forall i :: 0 <= i < |s| - |r| ==> IsTrimmable(s[i])
  {
    if s != [] && IsTrimmable(s[0]) then StripLeading(s[1..]) else s
  }

  function StripTrailing(s: string): (r: string)
    ensures |r| <= |s| && r == s[..|r|]
    ensures r == [] || !IsTrimmable(r[|r| - 1])
    ensures forall i :: |r| <= i < |s| ==> IsTrimmable(s[i])
  {
    if s != [] && IsTrimmable(s[|s| - 1]) then StripTrailing(s[..|s| - 1]) else s
  }

  /** `String.trim`: `s` without its leading and trailing characters up to
      U+0020. The result is a slice of `s`, everything cut away is
      trimmable, and what is left neither starts nor ends with a trimmable
      character. */
  function Trim(s: string): (r: string)
    ensures exists i, j ::
              && 0 <= i <= j <= |s| && r == s[i..j]
              && (forall k :: 0 <= k < i ==> IsTrimmable(s[k]))
              && (forall k :: j <= k < |s| ==> IsTrimmable(s[k]))
    ensures r != [] ==> !IsTrimmable(r[0]) && !IsTrimmable(r[|r| - 1])
  {
    var lead := StripLeading(s);
    var r := StripTrailing(lead);
    var i := |s| - |lead|;
    assert r == s[i..i + |r|];
    r
  }

  /** A string that already neither starts nor ends with a trimmable
      character is left alone by both strips. */
  lemma StripsFixClean(s: string)
    requires s == [] || (!IsTrimmable(s[0]) && !IsTrimmable(s[|s| - 1]))
    ensures StripLeading(s) == s && StripTrailing(s) == s
  {
  }

  /** Trimming twice is trimming once. */
  lemma TrimIdempotent(s: string)
    ensures Trim(Trim(s)) == Trim(s)
  {
    StripsFixClean(Trim(s));
  }

  /** Trim yields the empty string exactly when every character is
      trimmable. */
  lemma {:induction false} TrimEmptyIff(s: string)
    ensures Trim(s) == [] <==> forall i :: 0 <= i < |s| ==> IsTrimmable(s[i])
  {
    if forall i :: 0 <= i < |s| ==> IsTrimmable(s[i]) {
      AllTrimmableStripsToEmpty(s);
    }
  }

  lemma {:induction false} AllTrimmableStripsToEmpty(s: string)
    requires forall i :: 0 <= i < |s| ==> IsTrimmable(s[i])
    ensures StripLeading(s) == []
  {
    if s != [] {
      AllTrimmableStripsToEmpty(s[1..]);
    }
  }

  /** Being blank and trimming to nothing are different tests: a lone NUL
      is not blank yet trims away, and an ideographic space is blank yet
      survives trim. */
  lemma BlankAndTrimDiffer()
    ensures !IsBlank("\U{0}") && Trim("\U{0}") == []
    ensures IsBlank("\U{3000}") && Trim("\U{3000}") == "\U{3000}"
  {
    assert !IsWhitespace("\U{0}"[0]);
    StripsFixClean("\U{3000}");
  }
}
