/** String operations the source borrows from JavaScript: `\s`, `\d`, `trim`, `split`,
    `includes`, `replace` with a string pattern, number-to-text and `parseInt`/`parseFloat`. */
module Text {
  import opened Wrappers

  /** JavaScript's `\s` class (also the white space `trim` and `parseInt` skip). */
  predicate IsSpace(c: char) {
    || c == '\t' || c == '\n' || c == '\U{000B}' || c == '\U{000C}' || c == '\r' || c == ' '
    || c == '\U{00A0}' || c == '\U{1680}' || ('\U{2000}' <= c <= '\U{200A}')
    || c == '\U{2028}' || c == '\U{2029}' || c == '\U{202F}' || c == '\U{205F}'
    || c == '\U{3000}' || c == '\U{FEFF}'
  }

  /** JavaScript's `\d` class: ASCII digits only. */
  predicate IsDigit(c: char) {
    '0' <= c <= '9'
  }

  /** Lower-cases ASCII letters and leaves every other character unchanged. */
  function LowerChar(c: char): char {
    if 'A' <= c <= 'Z' then (c as int + 32) as char else c
  }

  function ToLower(s: string): (r: string)
    ensures |r| == |s|
    ensures forall i :: 0 <= i < |s| ==> r[i] == LowerChar(s[i])
  {
    seq(|s|, i requires 0 <= i < |s| => LowerChar(s[i]))
  }

  /** Lower-casing twice is lower-casing once. */
  lemma ToLowerIdempotent(s: string)
    ensures ToLower(ToLower(s)) == ToLower(s)
  {
  }

  /** `s` with leading white space removed (`trimStart`). */
  function TrimStart(s: string): (r: string)
    ensures |r| <= |s| && r == s[|s| - |r|..]
    ensures |r| > 0 ==> !IsSpace(r[0])
    ensures forall i :: 0 <= i < |s| - |r| ==> IsSpace(s[i])
    decreases |s|
  {
    if |s| > 0 && IsSpace(s[0]) then TrimStart(s[1..]) else s
  }

  /** `s` with trailing white space removed (`trimEnd`). */
  function TrimEnd(s: string): (r: string)
    ensures |r| <= |s| && r == s[..|r|]
    ensures |r| > 0 ==> !IsSpace(r[|r| - 1])
    ensures forall i :: |r| <= i < |s| ==> IsSpace(s[i])
    decreases |s|
  {
    if |s| > 0 && IsSpace(s[|s| - 1]) then TrimEnd(s[..|s| - 1]) else s
  }

  /** `String.prototype.trim`. */
  function Trim(s: string): (r: string)
    ensures |r| > 0 ==> !IsSpace(r[0]) && !IsSpace(r[|r| - 1])
  {
    TrimStart(TrimEnd(s))
  }

  /** True when every character of `s` is white space: exactly when `trim` yields the empty string. */
  predicate IsBlank(s: string) {
    forall i :: 0 <= i < |s| ==> IsSpace(s[i])
  }

  lemma TrimEmptyIffBlank(s: string)
    ensures Trim(s) == [] <==> IsBlank(s)
  {
    var e := TrimEnd(s);
    assert |e| > 0 ==> e[|e| - 1] == s[|e| - 1];
    assert forall i :: 0 <= i < |e| ==> e[i] == s[i];
  }

  /** `s.split(sep)` for a one-character separator: the pieces between separators. */
  function Split(s: string, sep: char): (pieces: seq<string>)
    ensures |pieces| >= 1
    ensures forall k :: 0 <= k < |pieces| ==> sep !in pieces[k]
    decreases |s|
  {
    if |s| == 0 then [""]
    else
      var rest := Split(s[1..], sep);
      if s[0] == sep then [""] + rest
      else [[s[0]] + rest[0]] + rest[1..]
  }

  /** Joins pieces with `sep` in between (`Array.prototype.join`). */
  function Join(pieces: seq<string>, sep: char): string
    requires |pieces| >= 1
    decreases |pieces|
  {
    if |pieces| == 1 then pieces[0] else pieces[0] + [sep] + Join(pieces[1..], sep)
  }

  /** Splitting loses nothing: joining the pieces back gives the original text. */
  lemma {:induction false} SplitJoin(s: string, sep: char)
    ensures Join(Split(s, sep), sep) == s
    decreases |s|
  {
    if |s| > 0 {
      var rest := Split(s[1..], sep);
      SplitJoin(s[1..], sep);
      if s[0] == sep {
        assert Split(s, sep)[1..] == rest;
      } else {
        var pieces := Split(s, sep);
        if |rest| == 1 {
          assert pieces == [[s[0]] + rest[0]];
        } else {
          assert pieces[1..] == rest[1..];
          assert Join(rest, sep) == rest[0] + [sep] + Join(rest[1..], sep);
        }
      }
    }
  }

  /** Splitting text that has no separator yields the text itself. */
  lemma {:induction false} SplitNoSeparator(s: string, sep: char)
    requires sep !in s
    ensures Split(s, sep) == [s]
    decreases |s|
  {
    if |s| > 0 {
      SplitNoSeparator(s[1..], sep);
      assert [s[0]] + s[1..] == s;
    }
  }

  /** Splitting `a + [sep] + b` where `a` has no separator: `a` first, then the pieces of `b`. */
  lemma {:induction false} SplitAtFirst(a: string, b: string, sep: char)
    requires sep !in a
    ensures Split(a + [sep] + b, sep) == [a] + Split(b, sep)
    decreases |a|
  {
    var s := a + [sep] + b;
    if |a| == 0 {
      assert s[1..] == b;
    } else {
      assert s[1..] == a[1..] + [sep] + b;
      SplitAtFirst(a[1..], b, sep);
      assert [a[0]] + a[1..] == a;
    }
  }

  /** `pat` occurs in `s` at index `j`. */
  predicate OccursAt(s: string, pat: string, j: int) {
    0 <= j && j + |pat| <= |s| && s[j..j + |pat|] == pat
  }

  function IndexFrom(s: string, pat: string, from: nat): (r: Option<nat>)
    requires from <= |s| + 1
    ensures r.Some? ==> from <= r.value && OccursAt(s, pat, r.value)
    ensures r.Some? ==> forall j :: from <= j < r.value ==> !OccursAt(s, pat, j)
    ensures r.None? ==> forall j :: from <= j ==> !OccursAt(s, pat, j)
    decreases |s| + 1 - from
  {
    if from + |pat| > |s| then None
    else if s[from..from + |pat|] == pat then Some(from)
    else IndexFrom(s, pat, from + 1)
  }

  /** `s.indexOf(pat)`: the first index where `pat` occurs, if any. */
  function IndexOf(s: string, pat: string): (r: Option<nat>)
    ensures r.Some? ==> OccursAt(s, pat, r.value)
    ensures r.Some? ==> forall j :: 0 <= j < r.value ==> !OccursAt(s, pat, j)
    ensures r.None? ==> forall j :: !OccursAt(s, pat, j)
  {
    IndexFrom(s, pat, 0)
  }

  /** `s.includes(pat)`. */
  function Contains(s: string, pat: string): (b: bool)
    ensures b <==> exists j :: OccursAt(s, pat, j)
  {
    IndexOf(s, pat).Some?
  }

  /** The empty string is contained in every string. */
  lemma ContainsEmpty(s: string)
    ensures Contains(s, "")
  {
    assert OccursAt(s, "", 0);
  }

  /** `s.replace(pat, rep)` with a string pattern: only the first occurrence is replaced.
      (`$`-patterns in `rep` are not interpreted here.) */
  function ReplaceFirst(s: string, pat: string, rep: string): (r: string)
    ensures (forall j :: !OccursAt(s, pat, j)) ==> r == s
    ensures IndexOf(s, pat).Some? ==>
      var i := IndexOf(s, pat).value; r == s[..i] + rep + s[i + |pat|..]
  {
    match IndexOf(s, pat)
    case None => s
    case Some(i) => s[..i] + rep + s[i + |pat|..]
  }

  /** Only the first occurrence is replaced: an occurrence after it survives, shifted by the
      difference in length between the replacement and the pattern. */
  lemma ReplaceFirstKeepsLater(s: string, pat: string, rep: string, i: nat, k: nat)
    requires OccursAt(s, pat, i) && forall j :: 0 <= j < i ==> !OccursAt(s, pat, j)
    requires OccursAt(s, pat, k) && k >= i + |pat|
    ensures OccursAt(ReplaceFirst(s, pat, rep), pat, k - |pat| + |rep|)
  {
    var r := ReplaceFirst(s, pat, rep);
    assert IndexOf(s, pat) == Some(i);
    var k' := k - |pat| + |rep|;
    var tail := s[i + |pat|..];
    assert r == s[..i] + rep + tail;
    assert r[k'..k' + |pat|] == tail[k - i - |pat|..k - i];
    assert tail[k - i - |pat|..k - i] == s[k..k + |pat|];
  }

  /** The character of a decimal digit value. */
  function DigitChar(d: int): (c: char)
    requires 0 <= d < 10
    ensures IsDigit(c)
  {
    ('0' as int + d) as char
  }

  /** The value of a digit character. */
  function DigitValue(c: char): (d: int)
    requires IsDigit(c)
    ensures 0 <= d < 10
  {
    c as int - '0' as int
  }

  predicate AllDigits(s: string) {
    forall i :: 0 <= i < |s| ==> IsDigit(s[i])
  }

  /** Decimal text of a natural number, without leading zeros (`String(n)`). */
  function NatToDecimal(n: nat): (s: string)
    ensures |s| >= 1 && AllDigits(s)
    decreases n
  {
    if n < 10 then [DigitChar(n)] else NatToDecimal(n / 10) + [DigitChar(n % 10)]
  }

  /** Decimal text of an integer, with a leading '-' when negative (template-literal
      interpolation of an integer). */
  function IntToDecimal(i: int): (s: string)
    ensures |s| >= 1
    ensures i < 0 <==> s[0] == '-'
    ensures forall k :: 0 <= k < |s| ==> IsDigit(s[k]) || (k == 0 && s[k] == '-')
  {
    if i < 0 then "-" + NatToDecimal(-i) else NatToDecimal(i)
  }

  /** The value of a string of decimal digits. */
  function DigitsValue(ds: string): nat
    requires AllDigits(ds)
    decreases |ds|
  {
    if |ds| == 0 then 0 else DigitsValue(ds[..|ds| - 1]) * 10 + DigitValue(ds[|ds| - 1])
  }

  /** The longest prefix of `s` made of digits. */
  function LeadingDigits(s: string): (ds: string)
    ensures AllDigits(ds) && |ds| <= |s| && ds == s[..|ds|]
    ensures |ds| < |s| ==> !IsDigit(s[|ds|])
    decreases |s|
  {
    if |s| > 0 && IsDigit(s[0]) then [s[0]] + LeadingDigits(s[1..]) else ""
  }

  /** The integer prefix `parseInt`/`parseFloat` read: leading white space, an optional sign,
      then at least one digit; `None` stands for `NaN`. */
  function ParseIntPrefix(s: string): (r: Option<int>)
    ensures r.Some? ==> exists k :: 0 <= k < |s| && IsDigit(s[k])
  {
    var t := TrimStart(s);
    var negative := |t| > 0 && t[0] == '-';
    var body := if |t| > 0 && (t[0] == '-' || t[0] == '+') then t[1..] else t;
    var ds := LeadingDigits(body);
    if |ds| == 0 then None
    else
      assert IsDigit(body[0]) && body[0] in s;
      Some(if negative then -(DigitsValue(ds) as int) else DigitsValue(ds))
  }

  lemma {:induction false} DecimalValue(n: nat)
    ensures DigitsValue(NatToDecimal(n)) == n
    decreases n
  {
    if n >= 10 {
      DecimalValue(n / 10);
      var s := NatToDecimal(n);
      assert s[..|s| - 1] == NatToDecimal(n / 10);
    }
  }

  lemma {:induction false} LeadingDigitsOfDigits(ds: string)
    requires AllDigits(ds)
    ensures LeadingDigits(ds) == ds
    decreases |ds|
  {
    if |ds| > 0 {
      LeadingDigitsOfDigits(ds[1..]);
    }
  }

  /** Text starting with a digit or a sign has no leading white space to skip. */
  lemma TrimStartNoSpace(s: string)
    requires |s| > 0 && (IsDigit(s[0]) || s[0] == '-')
    ensures TrimStart(s) == s
  {
    assert !IsSpace(s[0]) by { DigitOrMinusNotSpace(s[0]); }
  }

  lemma DigitOrMinusNotSpace(c: char)
    requires IsDigit(c) || c == '-'
    ensures !IsSpace(c)
  {
  }

  /** Reading back the decimal text of an integer gives the integer. */
  lemma ParseDecimalRoundTrip(i: int)
    ensures ParseIntPrefix(IntToDecimal(i)) == Some(i)
  {
    TrimStartNoSpace(IntToDecimal(i));
    if i < 0 {
      ParseNegativeDecimal(-i);
    } else {
      ParseNaturalDecimal(i);
    }
  }

  /** Text after the number that does not start with a digit is not read. */
  lemma ParseDecimalThen(i: int, rest: string)
    requires |rest| == 0 || !IsDigit(rest[0])
    ensures ParseIntPrefix(IntToDecimal(i) + rest) == Some(i)
  {
    if i < 0 {
      NegativeDecimalThen(-i, rest);
    } else {
      NaturalDecimalThen(i, rest);
    }
  }

  lemma NegativeDecimalThen(n: nat, rest: string)
    requires n > 0 && (|rest| == 0 || !IsDigit(rest[0]))
    ensures ParseIntPrefix(IntToDecimal(-(n as int)) + rest) == Some(-(n as int))
  {
    var ds := NatToDecimal(n);
    var s := IntToDecimal(-(n as int)) + rest;
    assert IntToDecimal(-(n as int)) == "-" + ds;
    assert s == "-" + (ds + rest);
    TrimStartNoSpace(s);
    DecimalValue(n);
    ParseMinusDigits(s, ds, rest);
  }

  lemma NaturalDecimalThen(n: nat, rest: string)
    requires |rest| == 0 || !IsDigit(rest[0])
    ensures ParseIntPrefix(IntToDecimal(n) + rest) == Some(n)
  {
    var ds := NatToDecimal(n);
    var s := IntToDecimal(n) + rest;
    assert IntToDecimal(n) == ds;
    assert s[0] == ds[0];
    TrimStartNoSpace(s);
    DecimalValue(n);
    ParsePlainDigits(s, ds, rest);
  }

  lemma ParseMinusDigits(s: string, ds: string, rest: string)
    requires AllDigits(ds) && |ds| > 0 && (|rest| == 0 || !IsDigit(rest[0]))
    requires s == "-" + (ds + rest) && TrimStart(s) == s
    ensures ParseIntPrefix(s) == Some(-(DigitsValue(ds) as int))
  {
    assert s[0] == '-';
    assert s[1..] == ds + rest;
    LeadingDigitsThen(ds, rest);
  }

  lemma ParsePlainDigits(s: string, ds: string, rest: string)
    requires AllDigits(ds) && |ds| > 0 && (|rest| == 0 || !IsDigit(rest[0]))
    requires s == ds + rest && TrimStart(s) == s
    ensures ParseIntPrefix(s) == Some(DigitsValue(ds))
  {
    assert s[0] == ds[0] && IsDigit(s[0]);
    LeadingDigitsThen(ds, rest);
  }

  /** The leading digits of digits followed by a non-digit are those digits. */
  lemma {:induction false} LeadingDigitsThen(ds: string, rest: string)
    requires AllDigits(ds) && (|rest| == 0 || !IsDigit(rest[0]))
    ensures LeadingDigits(ds + rest) == ds
    decreases |ds|
  {
    if |ds| > 0 {
      assert (ds + rest)[1..] == ds[1..] + rest;
      LeadingDigitsThen(ds[1..], rest);
    } else {
      assert ds + rest == rest;
    }
  }

  lemma ParseNegativeDecimal(n: nat)
    requires n > 0
    requires TrimStart(IntToDecimal(-(n as int))) == IntToDecimal(-(n as int))
    ensures ParseIntPrefix(IntToDecimal(-(n as int))) == Some(-(n as int))
  {
    var s := IntToDecimal(-(n as int));
    var ds := NatToDecimal(n);
    assert s == "-" + ds;
    assert s[1..] == ds;
    LeadingDigitsOfDigits(ds);
    DecimalValue(n);
  }

  lemma ParseNaturalDecimal(n: nat)
    requires TrimStart(IntToDecimal(n)) == IntToDecimal(n)
    ensures ParseIntPrefix(IntToDecimal(n)) == Some(n)
  {
    var s := IntToDecimal(n);
    assert s == NatToDecimal(n);
    assert s[0] != '-' && s[0] != '+';
    LeadingDigitsOfDigits(s);
    DecimalValue(n);
  }
}
