/** The string operations the application relies on: `String.prototype.trim`,
    `toLowerCase`, `includes`, the truthiness of an optional string field,
    and the `\S+@\S+\.\S+` e-mail pattern of the profile wizard. */
module Text {
  import opened Seqs

  /** The characters `trim` removes and `\s` matches: tab, vertical tab,
      form feed, the byte-order mark, the space separators of Unicode and the
      four line terminators (the range from tab to carriage return takes in
      line feed, vertical tab and form feed). */
  predicate IsSpace(c: char) {
    '\t' <= c <= '\r' || c == ' ' || c == '\U{00A0}' || c == '\U{1680}' ||
    '\U{2000}' <= c <= '\U{200A}' || c == '\U{2028}' || c == '\U{2029}' || c == '\U{202F}' ||
    c == '\U{205F}' || c == '\U{3000}' || c == '\U{FEFF}'
  }

  predicate AllSpace(s: string) {
    forall i :: 0 <= i < |s| ==> IsSpace(s[i])
  }

  /** `s.trim()`: white space removed from both ends, one character at a
      time. The result has no white space at either end, and it is empty
      exactly when `s` holds nothing but white space. */
  function Trim(s: string): (r: string)
    ensures r == [] <==> AllSpace(s)
    ensures r != [] ==> !IsSpace(r[0]) && !IsSpace(r[|r| - 1])
    decreases |s|
  {
    if s != [] && IsSpace(s[0]) then
      assert AllSpace(s) <==> AllSpace(s[1..]) by {
        if AllSpace(s[1..]) {
          forall i | 1 <= i < |s| ensures IsSpace(s[i]) {
            assert s[i] == s[1..][i - 1];
          }
        }
      }
      Trim(s[1..])
    else if s != [] && IsSpace(s[|s| - 1]) then
      // Here `s[0]` is no space, so neither string is all white space.
      assert !AllSpace(s) && !AllSpace(s[..|s| - 1]) by {
        assert s[..|s| - 1][0] == s[0];
      }
      Trim(s[..|s| - 1])
    else
      s
  }

  /** Only white space is removed: the trimmed string is a contiguous
      piece of the original, and everything before and after that piece is
      white space. */
  lemma TrimIsInside(s: string)
    ensures exists i | 0 <= i <= |s| - |Trim(s)| ::
              OccursAt(s, Trim(s), i) && AllSpace(s[..i]) && AllSpace(s[i + |Trim(s)|..])
  {
    var i := TrimOffset(s);
  }

  /** Where the trimmed string starts in `s`: after the white space that
      trimming removes in front, with only white space behind it. */
  function TrimOffset(s: string): (i: int)
    ensures 0 <= i <= |s| - |Trim(s)|
    ensures OccursAt(s, Trim(s), i) && AllSpace(s[..i]) && AllSpace(s[i + |Trim(s)|..])
    decreases |s|
  {
    if s != [] && IsSpace(s[0]) then
      var i := TrimOffset(s[1..]);
      SpacesAroundAfterFirst(s, Trim(s[1..]), i);
      i + 1
    else if s != [] && IsSpace(s[|s| - 1]) then
      var i := TrimOffset(s[..|s| - 1]);
      SpacesAroundAfterLast(s, Trim(s[..|s| - 1]), i);
      i
    else
      assert OccursAt(s, s, 0);
      assert AllSpace(s[..0]) && AllSpace(s[|s|..]);
      0
  }

  /** A piece of `s[1..]` framed by white space, with `s[0]` a space, is a
      piece of `s` framed by white space one position later. */
  lemma SpacesAroundAfterFirst(s: string, r: string, i: int)
    requires s != [] && IsSpace(s[0]) && 0 <= i <= |s| - 1 - |r|
    requires OccursAt(s[1..], r, i) && AllSpace(s[1..][..i]) && AllSpace(s[1..][i + |r|..])
    ensures OccursAt(s, r, i + 1) && AllSpace(s[..i + 1]) && AllSpace(s[i + 1 + |r|..])
  {
    assert s[i + 1..i + 1 + |r|] == s[1..][i..i + |r|];
    assert s[i + 1 + |r|..] == s[1..][i + |r|..];
    var pre := s[..i + 1];
    forall k | 0 < k < |pre| ensures IsSpace(pre[k]) {
      assert pre[k] == s[1..][..i][k - 1];
    }
  }

  /** A piece of `s[..|s| - 1]` framed by white space, with the last
      character of `s` a space, is a piece of `s` framed by white space. */
  lemma SpacesAroundAfterLast(s: string, r: string, i: int)
    requires s != [] && IsSpace(s[|s| - 1]) && 0 <= i <= |s| - 1 - |r|
    requires OccursAt(s[..|s| - 1], r, i) && AllSpace(s[..|s| - 1][..i]) && AllSpace(s[..|s| - 1][i + |r|..])
    ensures OccursAt(s, r, i) && AllSpace(s[..i]) && AllSpace(s[i + |r|..])
  {
    var t := s[..|s| - 1];
    assert s[i..i + |r|] == t[i..i + |r|];
    assert s[..i] == t[..i];
    var post := s[i + |r|..];
    forall k | 0 <= k < |post| - 1 ensures IsSpace(post[k]) {
      assert post[k] == t[i + |r|..][k];
    }
  }

  /** The ASCII letters lower-cased; every other character unchanged. */
  function ToLowerChar(c: char): (r: char)
    ensures 'A' <= c <= 'Z' ==> 'a' <= r <= 'z' && r as int - c as int == 32
    ensures !('A' <= c <= 'Z') ==> r == c
  {
    if 'A' <= c <= 'Z' then (c as int + 32) as char else c
  }

  /** `s.toLowerCase()`, for ASCII letters. */
  function ToLower(s: string): (r: string)
    ensures |r| == |s|
    ensures forall i :: 0 <= i < |s| ==> r[i] == ToLowerChar(s[i])
  {
    seq(|s|, i requires 0 <= i < |s| => ToLowerChar(s[i]))
  }

  /** `hay.includes(needle)`: `needle` occurs in `hay` at some offset. */
  predicate Contains(hay: string, needle: string) {
    exists i | 0 <= i <= |hay| - |needle| :: OccursAt(hay, needle, i)
  }

  predicate OccursAt(hay: string, needle: string, i: int)
    requires 0 <= i <= |hay| - |needle|
  {
    hay[i..i + |needle|] == needle
  }

  /** An optional request field is truthy when present and not the empty
      string. */
  predicate Truthy(o: Option<string>) {
    o.Some? && o.value != ""
  }

  /** No white space in `s[lo..hi]`. */
  predicate NoSpaceIn(s: string, lo: int, hi: int)
    requires 0 <= lo <= hi <= |s|
  {
    forall k :: lo <= k < hi ==> !IsSpace(s[k])
  }

  /** A shortest match of `\S+@\S+\.\S+` with its `@` at `at` and its `.`
      at `dot`. */
  predicate EmailAt(s: string, at: int, dot: int)
  {
    0 < at && at + 1 < dot && dot + 1 < |s| &&
    s[at] == '@' && s[dot] == '.' &&
    !IsSpace(s[at - 1]) && NoSpaceIn(s, at + 1, dot) && !IsSpace(s[dot + 1])
  }

  /** The unanchored pattern `\S+@\S+\.\S+` matches somewhere in `s`. Every
      match of the three `\S+` runs contains a shortest one (one character
      before the `@`, one after the `.`), so this is exactly when the regular
      expression's `test` succeeds. */
  predicate LooksLikeEmail(s: string) {
    exists at, dot | 0 <= at < |s| && 0 <= dot < |s| :: EmailAt(s, at, dot)
  }

  /** A string the pattern matches has a non-space character, so its trimmed
      form is never empty. */
  lemma EmailIsNotBlank(s: string)
    requires LooksLikeEmail(s)
    ensures Trim(s) != ""
  {
    var at, dot :| 0 <= at < |s| && 0 <= dot < |s| && EmailAt(s, at, dot);
    assert !IsSpace(s[at]);
  }

  predicate IsDigit(c: char) {
    '0' <= c <= '9'
  }

  predicate AllDigits(s: string) {
    forall i :: 0 <= i < |s| ==> IsDigit(s[i])
  }

  /** One or more decimal digits. */
  predicate Digits(s: string) {
    |s| > 0 && AllDigits(s)
  }

  /** Digits, optionally preceded by a sign. */
  predicate SignedDigits(s: string) {
    Digits(s) || (|s| > 0 && (s[0] == '+' || s[0] == '-') && Digits(s[1..]))
  }

  /** `e` or `E` followed by signed digits. */
  predicate ExponentPart(s: string) {
    |s| > 0 && (s[0] == 'e' || s[0] == 'E') && SignedDigits(s[1..])
  }

  /** Digits with an optional decimal point, and a digit on at least one
      side of the point. */
  predicate Mantissa(m: string) {
    Digits(m) || exists d | 0 <= d < |m| :: PointAt(m, d)
  }

  predicate PointAt(m: string, d: int)
    requires 0 <= d < |m|
  {
    m[d] == '.' && AllDigits(m[..d]) && AllDigits(m[d + 1..]) && (d > 0 || d + 1 < |m|)
  }

  /** A mantissa followed by an optional exponent, split at `k`. */
  predicate MantissaThenExponent(s: string, k: int)
    requires 0 <= k <= |s|
  {
    Mantissa(s[..k]) && (k == |s| || ExponentPart(s[k..]))
  }

  /** An unsigned decimal literal: `Infinity`, or a mantissa with an optional
      exponent. */
  predicate UnsignedDecimal(s: string) {
    s == "Infinity" || exists k | 0 <= k <= |s| :: MantissaThenExponent(s, k)
  }

  /** A decimal literal with an optional sign. */
  predicate DecimalLiteral(s: string) {
    UnsignedDecimal(s) || (|s| > 0 && (s[0] == '+' || s[0] == '-') && UnsignedDecimal(s[1..]))
  }

  predicate IsHexDigit(c: char) {
    IsDigit(c) || 'a' <= c <= 'f' || 'A' <= c <= 'F'
  }

  /** A `0x`, `0o` or `0b` integer literal, unsigned. */
  predicate PrefixedInteger(s: string) {
    |s| > 2 && s[0] == '0' &&
    (((s[1] == 'x' || s[1] == 'X') && forall i :: 2 <= i < |s| ==> IsHexDigit(s[i])) ||
     ((s[1] == 'o' || s[1] == 'O') && forall i :: 2 <= i < |s| ==> '0' <= s[i] <= '7') ||
     ((s[1] == 'b' || s[1] == 'B') && forall i :: 2 <= i < |s| ==> s[i] == '0' || s[i] == '1'))
  }

  /** `!isNaN(Number(s))`: after trimming, the string is empty (which reads as
      zero), a decimal literal, or a prefixed integer literal. */
  predicate IsNumeric(s: string) {
    var t := Trim(s);
    t == "" || DecimalLiteral(t) || PrefixedInteger(t)
  }

  /** A string of decimal digits, such as an age typed into the form, is
      numeric, and so is one made only of white space. */
  lemma DigitsAreNumeric(s: string)
    requires Digits(s) || AllSpace(s)
    ensures IsNumeric(s)
  {
    if Digits(s) {
      assert !IsSpace(s[0]) && !IsSpace(s[|s| - 1]);
      assert Trim(s) == s;
      assert MantissaThenExponent(s, |s|) by {
        assert s[..|s|] == s;
      }
    }
  }

  /** Some character is a decimal digit. */
  predicate HasDigit(s: string) {
    exists i | 0 <= i < |s| :: IsDigit(s[i])
  }

  lemma MantissaHasDigit(m: string)
    requires Mantissa(m)
    ensures HasDigit(m)
  {
    if Digits(m) {
      assert IsDigit(m[0]);
    } else {
      var d :| 0 <= d < |m| && PointAt(m, d);
      if d > 0 {
        assert IsDigit(m[..d][0]);
      } else {
        assert IsDigit(m[d + 1..][0]);
      }
    }
  }

  lemma UnsignedDecimalHasDigit(s: string)
    requires UnsignedDecimal(s) && s != "Infinity"
    ensures HasDigit(s)
  {
    var k :| 0 <= k <= |s| && MantissaThenExponent(s, k);
    MantissaHasDigit(s[..k]);
    var j :| 0 <= j < k && IsDigit(s[..k][j]);
    assert s[j] == s[..k][j];
  }

  /** Apart from the spellings of infinity, every numeric literal holds a
      decimal digit. */
  lemma LiteralHasDigit(t: string)
    requires DecimalLiteral(t) || PrefixedInteger(t)
    requires t != "Infinity" && t != "+Infinity" && t != "-Infinity"
    ensures HasDigit(t)
  {
    if PrefixedInteger(t) {
      assert IsDigit(t[0]);
    } else if UnsignedDecimal(t) {
      UnsignedDecimalHasDigit(t);
    } else {
      var u := t[1..];
      assert t == [t[0]] + u;
      UnsignedDecimalHasDigit(u);
      var j :| 0 <= j < |u| && IsDigit(u[j]);
      assert t[j + 1] == u[j];
    }
  }

  /** Apart from white space and the spellings of infinity, every numeric
      string holds a decimal digit: a word such as an age written out in
      letters is not numeric. */
  lemma NumericHasDigit(s: string)
    requires IsNumeric(s)
    ensures var t := Trim(s);
            t == "" || t == "Infinity" || t == "+Infinity" || t == "-Infinity" || HasDigit(t)
  {
    var t := Trim(s);
    if t != "" && t != "Infinity" && t != "+Infinity" && t != "-Infinity" {
      LiteralHasDigit(t);
    }
  }
}
