/**
 * The JavaScript string built-ins the blog code leans on, written out:
 * `String.prototype.trim`, `startsWith`, `replace` with a string pattern
 * (first occurrence only), `parseInt` with no radix, and the decimal
 * rendering of a non-negative integer (template literals over `Date.now()`).
 */
module JsText {
  import opened Wrappers

  /**
   * The WhiteSpace and LineTerminator code points of ECMAScript, which `trim`
   * strips: tab, LF, vertical tab, form feed, CR, space, no-break space, the
   * other space separators (U+1680, U+2000 to U+200A, U+202F, U+205F, U+3000),
   * the line and paragraph separators and the byte order mark.
   */
  predicate IsJsSpace(c: char) {
    var n := c as int;
    || 0x09 <= n <= 0x0D || n == 0x20 || n == 0xA0 || n == 0x1680 || 0x2000 <= n <= 0x200A
    || n == 0x2028 || n == 0x2029 || n == 0x202F || n == 0x205F || n == 0x3000 || n == 0xFEFF
  }

  /** `s` has no white space at either end (what `trim` guarantees). */
  predicate IsTrimmed(s: string) {
    s == [] || (!IsJsSpace(s[0]) && !IsJsSpace(s[|s| - 1]))
  }

  /** Leading white space removed: the longest suffix of `s` that does not start with white space. */
  function TrimStart(s: string): (r: string)
    ensures |r| <= |s| && r == s[|s| - |r|..]
    ensures r == [] || !IsJsSpace(r[0])
  {
    if s != [] && IsJsSpace(s[0]) then TrimStart(s[1..]) else s
  }

  /** What `TrimStart` drops is white space. */
  lemma {:induction false} TrimStartDropsOnlySpace(s: string)
    ensures forall i :: 0 <= i < |s| - |TrimStart(s)| ==> IsJsSpace(s[i])
  {
    if s != [] && IsJsSpace(s[0]) {
      TrimStartDropsOnlySpace(s[1..]);
      assert forall i :: 1 <= i < |s| - |TrimStart(s)| ==> s[i] == s[1..][i - 1];
    }
  }

  /** Trailing white space removed: the longest prefix of `s` that does not end with white space. */
  function TrimEnd(s: string): (r: string)
    ensures |r| <= |s| && r == s[..|r|]
    ensures r == [] || !IsJsSpace(r[|r| - 1])
  {
    if s != [] && IsJsSpace(s[|s| - 1]) then TrimEnd(s[..|s| - 1]) else s
  }

  /** What `TrimEnd` drops is white space. */
  lemma {:induction false} TrimEndDropsOnlySpace(s: string)
    ensures forall i :: |TrimEnd(s)| <= i < |s| ==> IsJsSpace(s[i])
  {
    if s != [] && IsJsSpace(s[|s| - 1]) {
      TrimEndDropsOnlySpace(s[..|s| - 1]);
    }
  }

  /** `s.trim()`: white space is stripped from both ends of `s`. */
  function Trim(s: string): (r: string)
    ensures IsTrimmed(r) && |r| <= |s|
  {
    if s != [] && IsJsSpace(s[0]) then Trim(s[1..])
    else if s != [] && IsJsSpace(s[|s| - 1]) then Trim(s[..|s| - 1])
    else s
  }

  /** `trim` is the two one-sided trims in a row: leading white space first, then trailing. */
  lemma {:induction false} TrimIsBothTrims(s: string)
    ensures Trim(s) == TrimEnd(TrimStart(s))
  {
    if s != [] && IsJsSpace(s[0]) {
      TrimIsBothTrims(s[1..]);
    } else if s != [] && IsJsSpace(s[|s| - 1]) {
      var p := s[..|s| - 1];
      TrimIsBothTrims(p);
      assert TrimStart(p) == p by {
        if p != [] {
          assert p[0] == s[0];
        }
      }
    }
  }

  /** How many leading white-space characters `trim` drops from `s`. */
  function Lead(s: string): (n: nat)
    ensures n <= |s|
  {
    |s| - |TrimStart(s)|
  }

  /** The trim of `s` is the infix of `s` that starts right after its leading white space. */
  lemma TrimIsInfix(s: string)
    ensures Lead(s) + |Trim(s)| <= |s|
    ensures Trim(s) == s[Lead(s)..Lead(s) + |Trim(s)|]
  {
    TrimIsBothTrims(s);
    var t := TrimStart(s);
    var r := TrimEnd(t);
    var lead := Lead(s);
    assert t == s[lead..];
    assert r == t[..|r|];
    assert s[lead..][..|r|] == s[lead..lead + |r|];
  }

  /** The trailing white space of the two-pass trim, seen from the end of the whole input. */
  lemma TrailingDropIsSpace(s: string)
    ensures forall i :: |s| - |TrimStart(s)| + |TrimEnd(TrimStart(s))| <= i < |s| ==> IsJsSpace(s[i])
  {
    var t := TrimStart(s);
    var lead := |s| - |t|;
    TrimEndDropsOnlySpace(t);
    assert t == s[lead..];
    forall i | lead + |TrimEnd(t)| <= i < |s| ensures IsJsSpace(s[i]) {
      assert s[i] == t[i - lead];
    }
  }

  /** Everything `trim` drops from `s` is white space. */
  lemma {:induction false} TrimDropsOnlySpace(s: string)
    ensures forall i :: 0 <= i < Lead(s) ==> IsJsSpace(s[i])
    ensures forall i :: Lead(s) + |Trim(s)| <= i < |s| ==> IsJsSpace(s[i])
  {
    TrimIsBothTrims(s);
    TrimStartDropsOnlySpace(s);
    TrailingDropIsSpace(s);
  }

  /** Trimming is empty exactly when every character of the input is white space. */
  lemma {:induction false} TrimEmptyIff(s: string)
    ensures Trim(s) == [] <==> forall i :: 0 <= i < |s| ==> IsJsSpace(s[i])
  {
    TrimIsInfix(s);
    TrimDropsOnlySpace(s);
    var lead := Lead(s);
    if Trim(s) == [] {
      forall i | 0 <= i < |s| ensures IsJsSpace(s[i]) {
        if i >= lead {
          assert lead + |Trim(s)| <= i;
        }
      }
    } else {
      assert Trim(s)[0] == s[lead];
    }
  }

  /** A string already without surrounding white space is its own trim. */
  lemma {:induction false} TrimOfTrimmed(s: string)
    requires IsTrimmed(s)
    ensures Trim(s) == s
  {
  }

  /** Trimming twice is trimming once. */
  lemma TrimIdempotent(s: string)
    ensures Trim(Trim(s)) == Trim(s)
  {
    TrimOfTrimmed(Trim(s));
  }

  /** `s.startsWith(p)`. */
  predicate StartsWith(s: string, p: string): (b: bool)
    ensures b ==> |p| <= |s| && s == p + s[|p|..]
  {
    |p| <= |s| && s[..|p|] == p
  }

  /** `s.startsWith(p)` compares character by character. */
  lemma StartsWithPointwise(s: string, p: string)
    ensures StartsWith(s, p) <==> |p| <= |s| && forall i :: 0 <= i < |p| ==> s[i] == p[i]
  {
    if |p| <= |s| && forall i :: 0 <= i < |p| ==> s[i] == p[i] {
      assert s[..|p|] == p;
    }
  }

  /** `pat` occurs in `s` at index `i`. */
  predicate OccursAt(s: string, pat: string, i: int) {
    0 <= i && i + |pat| <= |s| && s[i..i + |pat|] == pat
  }

  /** `s.indexOf(pat, from)`: the first occurrence of `pat` at or after `from`, if any. */
  function IndexOfFrom(s: string, pat: string, from: nat): (r: Option<nat>)
    decreases |s| - from
    ensures r.Some? ==> from <= r.value && OccursAt(s, pat, r.value)
    ensures r.Some? ==> forall j :: from <= j < r.value ==> !OccursAt(s, pat, j)
    ensures r.None? ==> forall j :: from <= j ==> !OccursAt(s, pat, j)
  {
    if from + |pat| > |s| then None
    else if s[from..from + |pat|] == pat then Some(from)
    else IndexOfFrom(s, pat, from + 1)
  }

  /** `s.replace(pat, rep)` with a string pattern: only the first occurrence is replaced. */
  function ReplaceFirst(s: string, pat: string, rep: string): (r: string)
    ensures (forall j :: !OccursAt(s, pat, j)) ==> r == s
    ensures IndexOfFrom(s, pat, 0).Some? ==>
              var i := IndexOfFrom(s, pat, 0).value;
              |r| == |s| - |pat| + |rep| && r[..i] == s[..i] &&
              r[i..i + |rep|] == rep && r[i + |rep|..] == s[i + |pat|..]
  {
    match IndexOfFrom(s, pat, 0)
    case None => s
    case Some(i) => s[..i] + rep + s[i + |pat|..]
  }

  /** A non-empty pattern whose first character `s` lacks occurs nowhere in `s`. */
  lemma AbsentFirstCharNeverOccurs(s: string, pat: string)
    requires pat != [] && forall i :: 0 <= i < |s| ==> s[i] != pat[0]
    ensures forall j :: !OccursAt(s, pat, j)
  {
    forall j ensures !OccursAt(s, pat, j) {
      if 0 <= j && j + |pat| <= |s| {
        assert s[j..j + |pat|][0] == s[j] != pat[0];
      }
    }
  }

  /** Replacing a pattern that the string starts with removes exactly that prefix. */
  lemma ReplaceFirstOfPrefix(pat: string, rest: string)
    ensures ReplaceFirst(pat + rest, pat, "") == rest
  {
    assert OccursAt(pat + rest, pat, 0);
    assert IndexOfFrom(pat + rest, pat, 0) == Some(0);
  }

  // ---------------------------------------------------------------------------
  // parseInt

  /** A JavaScript number as `parseInt` can produce it: NaN or an integer. */
  datatype JsNumber = NaN | Int(value: int)

  predicate IsDecimalDigit(c: char) { '0' <= c <= '9' }

  predicate IsHexDigit(c: char) { IsDecimalDigit(c) || 'a' <= c <= 'f' || 'A' <= c <= 'F' }

  predicate IsDigitIn(c: char, radix: nat) {
    if radix == 16 then IsHexDigit(c) else IsDecimalDigit(c)
  }

  function DigitValue(c: char): (d: nat)
    requires IsHexDigit(c)
    ensures d < 16
    ensures IsDecimalDigit(c) ==> d < 10
  {
    if IsDecimalDigit(c) then (c - '0') as nat
    else if 'a' <= c <= 'f' then (c - 'a') as nat + 10
    else (c - 'A') as nat + 10
  }

  /** The longest prefix of `s` made of digits of the given radix. */
  function DigitPrefix(s: string, radix: nat): (r: string)
    ensures |r| <= |s| && r == s[..|r|]
    ensures forall i :: 0 <= i < |r| ==> IsDigitIn(r[i], radix)
    ensures |r| < |s| ==> !IsDigitIn(s[|r|], radix)
  {
    if s != [] && IsDigitIn(s[0], radix) then [s[0]] + DigitPrefix(s[1..], radix) else []
  }

  /** The value of a digit string read most significant digit first. */
  function DigitsValue(ds: string, radix: nat): nat
    requires radix == 10 || radix == 16
    requires forall i :: 0 <= i < |ds| ==> IsDigitIn(ds[i], radix)
  {
    if ds == [] then 0
    else
      var last := ds[|ds| - 1];
      assert IsDigitIn(last, radix);
      DigitsValue(ds[..|ds| - 1], radix) * radix + DigitValue(last)
  }

  /**
   * `parseInt(s)` with no radix: leading white space is skipped, one sign is
   * read, a `0x`/`0X` prefix selects base 16, and the longest run of digits
   * that follows is read; no digits at all gives NaN. Trailing junk is ignored.
   */
  function ParseInt(s: string): (r: JsNumber)
    ensures r.NaN? <==> Numeral(s) == [] || !IsDigitIn(Numeral(s)[0], Radix(s))
    ensures r.Int? && IsNegative(s) ==> r.value <= 0
    ensures r.Int? && !IsNegative(s) ==> r.value >= 0
  {
    var ds := DigitPrefix(Numeral(s), Radix(s));
    if ds == [] then NaN
    else
      var v: int := DigitsValue(ds, Radix(s));
      Int(if IsNegative(s) then -v else v)
  }

  /** The text after leading white space starts with a minus sign. */
  predicate IsNegative(s: string) {
    var t := TrimStart(s);
    t != [] && t[0] == '-'
  }

  /** The text after leading white space and at most one sign. */
  function Unsigned(s: string): string {
    var t := TrimStart(s);
    if t != [] && (t[0] == '-' || t[0] == '+') then t[1..] else t
  }

  predicate HexPrefixed(u: string) { StartsWith(u, "0x") || StartsWith(u, "0X") }

  /** The radix `parseInt` picks: 16 after a `0x`/`0X` prefix, 10 otherwise. */
  function Radix(s: string): nat {
    if HexPrefixed(Unsigned(s)) then 16 else 10
  }

  /** Where the digits are read from: after the sign and any hex prefix. */
  function Numeral(s: string): string {
    var u := Unsigned(s);
    if HexPrefixed(u) then u[2..] else u
  }

  function DigitChar(d: nat): (c: char)
    requires d < 10
    ensures IsDecimalDigit(c) && DigitValue(c) == d
  {
    ('0' as int + d) as char
  }

  /** The decimal rendering of `n`, as `${n}` produces it. */
  function Decimal(n: nat): (r: string)
    ensures r != [] && forall i :: 0 <= i < |r| ==> IsDecimalDigit(r[i])
    ensures n > 0 ==> r[0] != '0'
  {
    if n < 10 then [DigitChar(n)] else Decimal(n / 10) + [DigitChar(n % 10)]
  }

  lemma {:induction false} DecimalValue(n: nat)
    ensures DigitsValue(Decimal(n), 10) == n
  {
    if n >= 10 {
      var ds := Decimal(n);
      assert ds[..|ds| - 1] == Decimal(n / 10);
      DecimalValue(n / 10);
    }
  }

  lemma {:induction false} DigitPrefixOfDigits(ds: string, rest: string, radix: nat)
    requires forall i :: 0 <= i < |ds| ==> IsDigitIn(ds[i], radix)
    requires rest == [] || !IsDigitIn(rest[0], radix)
    ensures DigitPrefix(ds + rest, radix) == ds
  {
    if ds != [] {
      assert (ds + rest)[1..] == ds[1..] + rest;
      DigitPrefixOfDigits(ds[1..], rest, radix);
    } else {
      assert ds + rest == rest;
    }
  }

  /**
   * `parseInt` reads back the decimal rendering of any non-negative integer,
   * whatever non-digit text follows it (so `parseInt("12abc")` is 12); the one
   * exception is `0` followed by `x`, which selects base 16.
   */
  lemma ParseIntOfDecimal(n: nat, rest: string)
    requires rest == [] || !IsDecimalDigit(rest[0])
    requires n > 0 || rest == [] || (rest[0] != 'x' && rest[0] != 'X')
    ensures ParseInt(Decimal(n) + rest) == Int(n)
  {
    var ds := Decimal(n);
    var s := ds + rest;
    assert s[0] == ds[0];
    assert !IsJsSpace(s[0]);
    assert TrimStart(s) == s;
    if |s| >= 2 && s[0] == '0' {
      assert n == 0 && |ds| == 1;
      assert s[1] == rest[0];
    }
    assert s[0] != '-' && s[0] != '+';
    assert Unsigned(s) == s && !IsNegative(s);
    NoHexPrefix(s);
    assert Radix(s) == 10 && Numeral(s) == s;
    DigitPrefixOfDigits(ds, rest, 10);
    DecimalValue(n);
  }

  lemma NoHexPrefix(s: string)
    requires |s| < 2 || s[0] != '0' || (s[1] != 'x' && s[1] != 'X')
    ensures !StartsWith(s, "0x") && !StartsWith(s, "0X")
  {
    if |s| >= 2 {
      assert s[..2][0] == s[0] && s[..2][1] == s[1];
    }
  }
}
