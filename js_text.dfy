/**
 * The JavaScript string built-ins the transposition engine relies on:
 * `String.prototype.split(' ')`, `Array.prototype.join(' ')`,
 * `parseInt(_, 10)` and the decimal `toString()` of an integer.
 * Numbers are modelled as unbounded integers.
 */
module JsText {
  import opened Options

  // ---------------------------------------------------------------------
  // split(' ') and join(' ')
  // ---------------------------------------------------------------------

  predicate SpaceFree(t: string) {
    forall i | 0 <= i < |t| :: t[i] != ' '
  }

  predicate AllSpaceFree(ts: seq<string>) {
    forall k | 0 <= k < |ts| :: SpaceFree(ts[k])
  }

  /** `s.split(' ')`: the pieces between single spaces, so two spaces in a
      row give an empty piece, and the empty string gives `[""]`. */
  function Split(s: string): (r: seq<string>)
    ensures |r| >= 1
    ensures |s| > 0 ==> |r| >= 2 || |r[0]| >= 1
    decreases |s|
  {
    if |s| == 0 then [""]
    else
      var rest := Split(s[1..]);
      if s[0] == ' ' then [""] + rest
      else [[s[0]] + rest[0]] + rest[1..]
  }

  /** `ts.join(' ')`: one space between each two pieces. */
  function Join(ts: seq<string>): (r: string)
    ensures |r| >= |ts| - 1
    decreases |ts|
  {
    if |ts| == 0 then ""
    else if |ts| == 1 then ts[0]
    else ts[0] + " " + Join(ts[1..])
  }

  lemma {:induction false} SplitPiecesSpaceFree(s: string)
    ensures AllSpaceFree(Split(s))
    decreases |s|
  {
    if |s| > 0 {
      SplitPiecesSpaceFree(s[1..]);
    }
  }

  /** Joining the pieces of a split gives the string back. */
  lemma {:induction false} JoinSplit(s: string)
    ensures Join(Split(s)) == s
    decreases |s|
  {
    if |s| > 0 {
      var rest := Split(s[1..]);
      JoinSplit(s[1..]);
      if s[0] == ' ' {
        assert Join([""] + rest) == "" + " " + Join(rest);
        assert s == [s[0]] + s[1..];
      } else if |rest| == 1 {
        assert s == [s[0]] + s[1..];
      } else {
        var r := [[s[0]] + rest[0]] + rest[1..];
        assert r[1..] == rest[1..];
        assert Join(rest) == rest[0] + " " + Join(rest[1..]);
        assert s == [s[0]] + s[1..];
      }
    }
  }

  lemma {:induction false} SplitSpaceFree(t: string)
    requires SpaceFree(t)
    ensures Split(t) == [t]
    decreases |t|
  {
    if |t| > 0 {
      SplitSpaceFree(t[1..]);
      assert t == [t[0]] + t[1..];
    }
  }

  lemma {:induction false} SplitAtSpace(a: string, b: string)
    requires SpaceFree(a)
    ensures Split(a + " " + b) == [a] + Split(b)
    decreases |a|
  {
    if |a| == 0 {
      assert (a + " " + b)[1..] == b;
    } else {
      assert (a + " " + b)[1..] == a[1..] + " " + b;
      SplitAtSpace(a[1..], b);
      assert a == [a[0]] + a[1..];
    }
  }

  /** Splitting a join of space-free pieces gives the pieces back, so a
      mapped split keeps its number of tokens. */
  lemma {:induction false} SplitJoin(ts: seq<string>)
    requires |ts| >= 1 && AllSpaceFree(ts)
    ensures Split(Join(ts)) == ts
    decreases |ts|
  {
    if |ts| == 1 {
      SplitSpaceFree(ts[0]);
    } else {
      SplitAtSpace(ts[0], Join(ts[1..]));
      SplitJoin(ts[1..]);
      assert ts == [ts[0]] + ts[1..];
    }
  }

  // ---------------------------------------------------------------------
  // Decimal digits
  // ---------------------------------------------------------------------

  predicate IsDigit(c: char) {
    '0' <= c <= '9'
  }

  predicate AllDigits(s: string) {
    forall i | 0 <= i < |s| :: IsDigit(s[i])
  }

  function DigitValue(c: char): (d: nat)
    requires IsDigit(c)
    ensures d < 10
  {
    (c as int) - ('0' as int)
  }

  function DigitChar(d: nat): (c: char)
    requires d < 10
    ensures IsDigit(c) && DigitValue(c) == d
  {
    (('0' as int) + d) as char
  }

  /** The value of a string of decimal digits, most significant first. */
  function DigitsValue(ds: string): nat
    requires AllDigits(ds)
    decreases |ds|
  {
    if |ds| == 0 then 0
    else 10 * DigitsValue(ds[..|ds| - 1]) + DigitValue(ds[|ds| - 1])
  }

  /** Digits without a superfluous leading zero. */
  predicate CanonicalDigits(ds: string) {
    |ds| >= 1 && AllDigits(ds) && (|ds| > 1 ==> ds[0] != '0')
  }

  /** The shortest decimal spelling of `n`. */
  function NatToDigits(n: nat): string
    decreases n
  {
    if n < 10 then [DigitChar(n)]
    else NatToDigits(n / 10) + [DigitChar(n % 10)]
  }

  /** `NatToDigits(n)` is a canonical spelling whose value is `n`. */
  lemma {:induction false} NatToDigitsSpec(n: nat)
    ensures CanonicalDigits(NatToDigits(n))
    ensures DigitsValue(NatToDigits(n)) == n
    decreases n
  {
    if n >= 10 {
      NatToDigitsSpec(n / 10);
      var ds := NatToDigits(n);
      assert ds[..|ds| - 1] == NatToDigits(n / 10);
    }
  }

  lemma {:induction false} DigitsValuePositive(ds: string)
    requires AllDigits(ds) && |ds| >= 1 && ds[0] != '0'
    ensures DigitsValue(ds) >= 1
    decreases |ds|
  {
    if |ds| > 1 {
      DigitsValuePositive(ds[..|ds| - 1]);
    }
  }

  /** A canonical digit string is the spelling of its own value. */
  lemma {:induction false} NatToDigitsOfValue(ds: string)
    requires CanonicalDigits(ds)
    ensures NatToDigits(DigitsValue(ds)) == ds
    decreases |ds|
  {
    var n := DigitsValue(ds);
    var init := ds[..|ds| - 1];
    if |ds| > 1 {
      DigitsValuePositive(init);
      NatToDigitsOfValue(init);
      assert n / 10 == DigitsValue(init) && n % 10 == DigitValue(ds[|ds| - 1]);
      assert DigitChar(DigitValue(ds[|ds| - 1])) == ds[|ds| - 1];
      assert ds == init + [ds[|ds| - 1]];
    } else {
      assert DigitChar(DigitValue(ds[0])) == ds[0];
    }
  }

  // ---------------------------------------------------------------------
  // Number.prototype.toString() of an integer
  // ---------------------------------------------------------------------

  /** `n.toString()` for an integral number: the shortest spelling, with a
      minus sign exactly when `n` is negative. */
  function FormatInt(n: int): (r: string)
    ensures CanonicalIntText(r)
    ensures r[0] == '-' <==> n < 0
  {
    if n < 0 then
      NatToDigitsSpec(-n);
      NatToDigitsLeading(-n);
      var r := "-" + NatToDigits(-n);
      assert r[1..] == NatToDigits(-n);
      r
    else
      NatToDigitsSpec(n);
      NatToDigits(n)
  }

  /** `toString()` writes a signed integer text: digits, or a minus sign
      followed by digits, and never a space. */
  lemma FormatIntShape(n: int)
    ensures IsIntText(FormatInt(n)) && SpaceFree(FormatInt(n))
  {
    var s := FormatInt(n);
    if n < 0 {
      NatToDigitsSpec(-n);
      assert s[1..] == NatToDigits(-n);
    } else {
      NatToDigitsSpec(n);
    }
  }

  /** The spellings `FormatInt` produces: canonical digits, optionally
      negated, and never `-0`. */
  predicate CanonicalIntText(t: string) {
    CanonicalDigits(t) || (|t| >= 2 && t[0] == '-' && CanonicalDigits(t[1..]) && t[1] != '0')
  }

  // ---------------------------------------------------------------------
  // parseInt(_, 10)
  // ---------------------------------------------------------------------

  /** The characters `parseInt` skips before the number: the ECMAScript
      WhiteSpace and LineTerminator characters. */
  predicate IsJsWhitespace(c: char) {
    var n := c as int;
    n == 0x09 || n == 0x0A || n == 0x0B || n == 0x0C || n == 0x0D || n == 0x20 ||
    n == 0xA0 || n == 0x1680 || (0x2000 <= n <= 0x200A) || n == 0x2028 || n == 0x2029 ||
    n == 0x202F || n == 0x205F || n == 0x3000 || n == 0xFEFF
  }

  function TrimStart(s: string): string
    decreases |s|
  {
    if |s| > 0 && IsJsWhitespace(s[0]) then TrimStart(s[1..]) else s
  }

  /** The longest prefix of `s` made of decimal digits. */
  function DigitPrefix(s: string): (ds: string)
    ensures AllDigits(ds)
    decreases |s|
  {
    if |s| > 0 && IsDigit(s[0]) then [s[0]] + DigitPrefix(s[1..]) else ""
  }

  /** `DigitPrefix` stops at the first character that is not a digit. */
  lemma {:induction false} DigitPrefixLongest(s: string)
    ensures DigitPrefix(s) <= s
    ensures |DigitPrefix(s)| < |s| ==> !IsDigit(s[|DigitPrefix(s)|])
    decreases |s|
  {
    if |s| > 0 && IsDigit(s[0]) {
      DigitPrefixLongest(s[1..]);
      assert s == [s[0]] + s[1..];
    }
  }

  /** `parseInt(s, 10)`: skip leading whitespace, read an optional sign and
      then as many digits as there are; no digit at all gives NaN (`None`).
      Whatever follows the digits is ignored, so `"3a"` reads as 3. */
  function ParseInt(s: string): (r: Option<int>)
  {
    var t := TrimStart(s);
    var negative := |t| > 0 && t[0] == '-';
    var body := if |t| > 0 && (t[0] == '-' || t[0] == '+') then t[1..] else t;
    var ds := DigitPrefix(body);
    var magnitude: int := DigitsValue(ds);
    if |ds| == 0 then None
    else if negative then Some(-magnitude)
    else Some(magnitude)
  }

  lemma {:induction false} DigitPrefixAll(s: string)
    requires AllDigits(s)
    ensures DigitPrefix(s) == s
    decreases |s|
  {
    if |s| > 0 {
      DigitPrefixAll(s[1..]);
      assert s == [s[0]] + s[1..];
    }
  }

  /** Reading back what `toString()` wrote gives the number. */
  lemma ParseFormatInt(n: int)
    ensures ParseInt(FormatInt(n)) == Some(n)
  {
    var s := FormatInt(n);
    FormatIntShape(n);
    NatToDigitsSpec(if n < 0 then -n else n);
    TrimStartAtSign(s);
    if n < 0 {
      assert s[1..] == NatToDigits(-n);
      DigitPrefixAll(NatToDigits(-n));
    } else {
      DigitPrefixAll(s);
    }
  }

  /** `-?\d+`: the text a regular expression group for a signed decimal
      integer accepts. */
  predicate IsIntText(t: string) {
    (|t| >= 1 && AllDigits(t)) || (|t| >= 2 && t[0] == '-' && AllDigits(t[1..]))
  }

  lemma TrimStartAtSign(s: string)
    requires |s| > 0 && (IsDigit(s[0]) || s[0] == '-')
    ensures TrimStart(s) == s
  {
    assert !IsJsWhitespace(s[0]);
  }

  lemma ParseIntDigits(t: string)
    requires |t| >= 1 && AllDigits(t)
    ensures ParseInt(t) == Some(DigitsValue(t))
  {
    TrimStartAtSign(t);
    DigitPrefixAll(t);
  }

  lemma ParseIntNegative(t: string)
    requires |t| >= 2 && t[0] == '-' && AllDigits(t[1..])
    ensures ParseInt(t) == Some(-(DigitsValue(t[1..]) as int))
  {
    TrimStartAtSign(t);
    DigitPrefixAll(t[1..]);
  }

  /** `parseInt` reads a signed integer text as its value. */
  lemma ParseIntText(t: string)
    requires IsIntText(t)
    ensures ParseInt(t).Some?
    ensures t[0] == '-' ==> ParseInt(t) == Some(-(DigitsValue(t[1..]) as int))
    ensures t[0] != '-' ==> ParseInt(t) == Some(DigitsValue(t))
  {
    if t[0] == '-' {
      ParseIntNegative(t);
    } else {
      ParseIntDigits(t);
    }
  }

  lemma NatToDigitsLeading(m: nat)
    requires m >= 1
    ensures NatToDigits(m)[0] != '0'
  {
    var ds := NatToDigits(m);
    NatToDigitsSpec(m);
    assert DigitsValue(ds) == 10 * DigitsValue(ds[..|ds| - 1]) + DigitValue(ds[|ds| - 1]);
  }

  lemma FormatParseNegative(t: string)
    requires |t| >= 2 && t[0] == '-' && AllDigits(t[1..])
    ensures FormatInt(-(DigitsValue(t[1..]) as int)) == t <==> CanonicalIntText(t)
  {
    var m: int := DigitsValue(t[1..]);
    if CanonicalIntText(t) {
      DigitsValuePositive(t[1..]);
      NatToDigitsOfValue(t[1..]);
      assert t == "-" + t[1..];
    }
    if FormatInt(-m) == t {
      if m != 0 {
        assert t[1..] == NatToDigits(m);
        NatToDigitsLeading(m);
      }
    }
  }

  lemma FormatParseDigits(t: string)
    requires |t| >= 1 && AllDigits(t)
    ensures FormatInt(DigitsValue(t)) == t <==> CanonicalIntText(t)
  {
    NatToDigitsSpec(DigitsValue(t));
    if CanonicalIntText(t) {
      NatToDigitsOfValue(t);
    }
  }

  /** A signed integer text is what `toString()` writes for its value
      exactly when it has no leading zero and is not `-0`. */
  lemma FormatParseIntText(t: string)
    requires IsIntText(t)
    ensures ParseInt(t).Some?
    ensures FormatInt(ParseInt(t).value) == t <==> CanonicalIntText(t)
  {
    ParseIntText(t);
    if t[0] == '-' {
      FormatParseNegative(t);
    } else {
      FormatParseDigits(t);
    }
  }

  // ---------------------------------------------------------------------
  // Array.prototype.indexOf
  // ---------------------------------------------------------------------

  /** `a.indexOf(x, k)`: the first position from `k` on that holds `x`, or
      -1 when there is none. */
  function IndexFrom<T(==)>(a: seq<T>, x: T, k: nat): (i: int)
    requires k <= |a|
    ensures i == -1 || k <= i < |a|
    decreases |a| - k
  {
    if k == |a| then -1
    else if a[k] == x then k
    else IndexFrom(a, x, k + 1)
  }

  /** The search stops at the first position holding `x`, and fails only
      when no position from `k` on holds it. */
  lemma {:induction false} IndexFromSpec<T>(a: seq<T>, x: T, k: nat)
    requires k <= |a|
    ensures IndexFrom(a, x, k) >= 0 ==>
              a[IndexFrom(a, x, k)] == x && x !in a[k..IndexFrom(a, x, k)]
    ensures IndexFrom(a, x, k) == -1 <==> x !in a[k..]
    decreases |a| - k
  {
    if k < |a| {
      IndexFromSpec(a, x, k + 1);
      assert a[k..] == [a[k]] + a[k + 1..];
      var i := IndexFrom(a, x, k);
      if i > k {
        assert a[k..i] == [a[k]] + a[k + 1..i];
      }
    }
  }

  /** `a.indexOf(x)`. */
  function IndexOf<T(==)>(a: seq<T>, x: T): (i: int)
    ensures -1 <= i < |a|
  {
    IndexFrom(a, x, 0)
  }

  /** `indexOf` finds the first position holding `x`, and gives -1 exactly
      when `x` is not in the array. */
  lemma IndexOfSpec<T>(a: seq<T>, x: T)
    ensures IndexOf(a, x) >= 0 ==> a[IndexOf(a, x)] == x && x !in a[..IndexOf(a, x)]
    ensures IndexOf(a, x) == -1 <==> x !in a
  {
    IndexFromSpec(a, x, 0);
    assert a[0..] == a;
  }

  /** In an array without repeated elements each element is found at its
      own position. */
  lemma IndexOfDistinct<T>(a: seq<T>, k: int)
    requires 0 <= k < |a|
    requires forall i, j | 0 <= i < j < |a| :: a[i] != a[j]
    ensures IndexOf(a, a[k]) == k
  {
    IndexOfSpec(a, a[k]);
    var i := IndexOf(a, a[k]);
    if i < k {
      assert a[i] == a[k];
    }
  }
}
