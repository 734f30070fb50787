/**
 * The JavaScript string and number built-ins the site's derivations use:
 * truthiness of strings in `||`, `startsWith`, `substring`, `split(' ')`,
 * `join`, `parseInt`, number-to-string conversion and the regular
 * expression `/\d{4}/`. Characters are Unicode scalar values; JavaScript
 * counts UTF-16 code units instead, which differs only outside the Basic
 * Multilingual Plane.
 */
module JsText {
  import opened Wrappers

  /** `a || b` on two strings: the empty string is the only falsy string. */
  function Or(a: string, b: string): (r: string)
    ensures r == a || r == b
    ensures r != "" <==> a != "" || b != ""
    ensures a != "" ==> r == a
  {
    if a != "" then a else b
  }

  /** `a || b` where a may be undefined. */
  function OrElse(a: Option<string>, b: string): (r: string)
    ensures (a.Some? && r == a.value) || r == b
    ensures r != "" <==> Truthy(a) || b != ""
    ensures Truthy(a) ==> r == a.value
  {
    if a.Some? && a.value != "" then a.value else b
  }

  /** A possibly undefined string that JavaScript treats as true: present and non-empty. */
  predicate Truthy(a: Option<string>) {
    a.Some? && a.value != ""
  }

  /** `s.startsWith(prefix)`. */
  predicate StartsWith(s: string, prefix: string)
    ensures StartsWith(s, prefix) <==> |prefix| <= |s| && s == prefix + s[|prefix|..]
  {
    |prefix| <= |s| && s[..|prefix|] == prefix
  }

  function Clamp(i: int, n: nat): (r: nat)
    ensures r <= n
  {
    if i < 0 then 0 else if i > n then n else i
  }

  /** `s.substring(start, end)`: both bounds clamped to the length, swapped when out of order. */
  function Substring(s: string, start: int, end: int): (r: string)
    ensures |r| <= |s|
    ensures 0 <= start <= end <= |s| ==> r == s[start..end]
    ensures start <= 0 && |s| <= end ==> r == s
  {
    var a, b := Clamp(start, |s|), Clamp(end, |s|);
    if a <= b then s[a..b] else s[b..a]
  }

  // ---------------------------------------------------------------------
  // split and join

  /** `s.split([sep])`: the pieces between separators, empty ones included. */
  function Split(s: string, sep: char): (r: seq<string>)
    ensures |r| >= 1
    ensures forall i :: 0 <= i < |r| ==> sep !in r[i]
    decreases |s|
  {
    if s == [] then [[]]
    else if s[0] == sep then [[]] + Split(s[1..], sep)
    else
      var rest := Split(s[1..], sep);
      [[s[0]] + rest[0]] + rest[1..]
  }

  /** `pieces.join([sep])`. */
  function Join(pieces: seq<string>, sep: char): (r: string)
    requires |pieces| >= 1
    ensures StartsWith(r, pieces[0])
    ensures forall c :: c in r <==> (c == sep && |pieces| > 1) || exists i :: 0 <= i < |pieces| && c in pieces[i]
    decreases |pieces|
  {
    if |pieces| == 1 then pieces[0] else pieces[0] + [sep] + Join(pieces[1..], sep)
  }

  /** Joining the pieces of a split gives back the original string. */
  lemma {:induction false} JoinSplit(s: string, sep: char)
    ensures Join(Split(s, sep), sep) == s
    decreases |s|
  {
    if s != [] {
      JoinSplit(s[1..], sep);
      if s[0] == sep {
        JoinSplitAtSeparator(s, sep);
      } else {
        JoinSplitInPiece(s, sep);
      }
    }
  }

  lemma JoinSplitAtSeparator(s: string, sep: char)
    requires s != [] && s[0] == sep
    requires Join(Split(s[1..], sep), sep) == s[1..]
    ensures Join(Split(s, sep), sep) == s
  {
    var rest := Split(s[1..], sep);
    assert ([[]] + rest)[1..] == rest;
    assert s == [sep] + s[1..];
  }

  lemma JoinSplitInPiece(s: string, sep: char)
    requires s != [] && s[0] != sep
    requires Join(Split(s[1..], sep), sep) == s[1..]
    ensures Join(Split(s, sep), sep) == s
  {
    var rest := Split(s[1..], sep);
    var r := Split(s, sep);
    assert s == [s[0]] + s[1..];
    if |rest| > 1 {
      assert r[1..] == rest[1..];
      assert Join(r, sep) == ([s[0]] + rest[0]) + [sep] + Join(rest[1..], sep);
      assert Join(rest, sep) == rest[0] + [sep] + Join(rest[1..], sep);
    }
  }

  /** A string without separators splits into itself. */
  lemma {:induction false} SplitWord(w: string, sep: char)
    requires sep !in w
    ensures Split(w, sep) == [w]
    decreases |w|
  {
    if w != [] {
      SplitWord(w[1..], sep);
      assert w == [w[0]] + w[1..];
    }
  }

  /** A separator-free word followed by a separator splits off as one piece. */
  lemma {:induction false} SplitWordThen(w: string, sep: char, t: string)
    requires sep !in w
    ensures Split(w + [sep] + t, sep) == [w] + Split(t, sep)
    decreases |w|
  {
    var s := w + [sep] + t;
    if w == [] {
      assert s[1..] == t;
    } else {
      assert s[1..] == w[1..] + [sep] + t;
      SplitWordThen(w[1..], sep, t);
      assert w == [w[0]] + w[1..];
    }
  }

  /** Split undoes Join of separator-free pieces, so Split determines the pieces uniquely. */
  lemma {:induction false} SplitJoin(pieces: seq<string>, sep: char)
    requires |pieces| >= 1
    requires forall i :: 0 <= i < |pieces| ==> sep !in pieces[i]
    ensures Split(Join(pieces, sep), sep) == pieces
    decreases |pieces|
  {
    if |pieces| == 1 {
      SplitWord(pieces[0], sep);
    } else {
      SplitJoin(pieces[1..], sep);
      SplitWordThen(pieces[0], sep, Join(pieces[1..], sep));
      assert pieces == [pieces[0]] + pieces[1..];
    }
  }

  /**
   * `pieces.map(n => n[0]).join('')`: `n[0]` of an empty piece is
   * `undefined`, which `join` renders as nothing.
   */
  function FirstChars(pieces: seq<string>): (r: string)
    ensures |r| <= |pieces|
    decreases |pieces|
  {
    if pieces == [] then []
    else (if pieces[0] != [] then [pieces[0][0]] else []) + FirstChars(pieces[1..])
  }

  // ---------------------------------------------------------------------
  // numbers

  predicate IsDecimalDigit(c: char) {
    '0' <= c <= '9'
  }

  /** The value of c as a digit in radices up to 36, and 36 when it is no digit at all. */
  function DigitOf(c: char): (d: nat)
    ensures d <= 36
    ensures d < 10 <==> IsDecimalDigit(c)
  {
    if '0' <= c <= '9' then c as int - '0' as int
    else if 'a' <= c <= 'z' then c as int - 'a' as int + 10
    else if 'A' <= c <= 'Z' then c as int - 'A' as int + 10
    else 36
  }

  function DigitChar(d: nat): (c: char)
    requires d < 10
    ensures IsDecimalDigit(c) && DigitOf(c) == d
  {
    (48 + d) as char
  }

  predicate AllDigits(ds: string, radix: nat) {
    forall i :: 0 <= i < |ds| ==> DigitOf(ds[i]) < radix
  }

  /** The length of the longest prefix of s made of digits of the radix. */
  function DigitRun(s: string, radix: nat): (n: nat)
    ensures n <= |s|
    ensures AllDigits(s[..n], radix)
    ensures n < |s| ==> DigitOf(s[n]) >= radix
    decreases |s|
  {
    if s != [] && DigitOf(s[0]) < radix then
      var n := 1 + DigitRun(s[1..], radix);
      assert forall i :: 1 <= i < n ==> s[..n][i] == s[1..][..n - 1][i - 1];
      n
    else 0
  }

  /** The positional value of a digit string, most significant digit first. */
  function ValueOf(ds: string, radix: nat): nat
    requires AllDigits(ds, radix)
    decreases |ds|
  {
    if ds == [] then 0
    else
      var init := ds[..|ds| - 1];
      assert AllDigits(init, radix) by {
        forall i | 0 <= i < |init| ensures DigitOf(init[i]) < radix {
          assert init[i] == ds[i];
        }
      }
      ValueOf(init, radix) * radix + DigitOf(ds[|ds| - 1])
  }

  /** The characters `parseInt` skips at the front: JavaScript's white space and line terminators. */
  predicate IsJsWhitespace(c: char) {
    c == '\t' || c == '\n' || c == '\U{000B}' || c == '\U{000C}' || c == '\r' || c == ' '
    || c == '\U{00A0}' || c == '\U{1680}' || ('\U{2000}' <= c <= '\U{200A}')
    || c == '\U{2028}' || c == '\U{2029}' || c == '\U{202F}' || c == '\U{205F}'
    || c == '\U{3000}' || c == '\U{FEFF}'
  }

  function TrimStart(s: string): (r: string)
    ensures r == [] || !IsJsWhitespace(r[0])
    decreases |s|
  {
    if s != [] && IsJsWhitespace(s[0]) then TrimStart(s[1..]) else s
  }

  /**
   * `parseInt(s)` with no radix argument; None stands for NaN. Leading
   * white space is skipped, one sign is taken, a `0x`/`0X` prefix selects
   * radix 16, and the longest run of digits that follows is read; anything
   * after it is ignored. The ensures is definitional; the facts about
   * reading numbers back are ParseIntString, ParseIntDigits and
   * ParseIntSignedNonDigit.
   */
  function ParseInt(s: string): (r: Option<int>)
    ensures r.None? <==> ParseMagnitude(Unsigned(TrimStart(s))).None?
    ensures r.Some? ==>
      var m := ParseMagnitude(Unsigned(TrimStart(s))).value;
      r.value == if IsNegative(TrimStart(s)) then -(m as int) else m
  {
    var t := TrimStart(s);
    if t != [] && t[0] == '-' then
      match ParseMagnitude(t[1..])
      case None => None
      case Some(v) => Some(-(v as int))
    else if t != [] && t[0] == '+' then ParseMagnitude(t[1..])
    else ParseMagnitude(t)
  }

  /** Text that starts with a minus sign. */
  predicate IsNegative(t: string) {
    t != [] && t[0] == '-'
  }

  /** The text after one leading sign, or all of it when it has none. */
  function Unsigned(t: string): string {
    if t != [] && (t[0] == '-' || t[0] == '+') then t[1..] else t
  }

  /** The unsigned part of `parseInt`: an optional `0x` prefix, then the digit run. */
  function ParseMagnitude(u: string): Option<nat> {
    if |u| >= 2 && u[0] == '0' && (u[1] == 'x' || u[1] == 'X') then ParseDigits(u[2..], 16)
    else ParseDigits(u, 10)
  }

  /** The value of the longest digit prefix of u; None when u does not start with a digit. */
  function ParseDigits(u: string, radix: nat): (r: Option<nat>)
  {
    var n := DigitRun(u, radix);
    if n == 0 then None else Some(ValueOf(u[..n], radix))
  }

  /** The decimal numeral of n, without leading zeros. */
  function NatToDecimal(n: nat): (s: string)
    ensures |s| >= 1 && AllDigits(s, 10)
    ensures s[0] == '0' <==> n == 0
    decreases n
  {
    if n < 10 then [DigitChar(n)] else NatToDecimal(n / 10) + [DigitChar(n % 10)]
  }

  /** `${n}` for an integer n (below 10^21, where JavaScript switches to exponent notation). */
  function IntToString(n: int): (s: string)
    ensures |s| >= 1
    ensures s[0] == '-' <==> n < 0
    ensures n < 0 ==> s[1..] == NatToDecimal(-n)
    ensures n >= 0 ==> s == NatToDecimal(n)
  {
    if n < 0 then "-" + NatToDecimal(-n) else NatToDecimal(n)
  }

  lemma {:induction false} ValueOfNatToDecimal(n: nat)
    ensures ValueOf(NatToDecimal(n), 10) == n
    decreases n
  {
    if n >= 10 {
      ValueOfNatToDecimal(n / 10);
      var a := NatToDecimal(n / 10);
      var s := a + [DigitChar(n % 10)];
      assert s[..|s| - 1] == a;
    }
  }

  /** A digit run followed by a non-digit is read up to its end and no further. */
  lemma {:induction false} DigitRunStops(ds: string, tail: string, radix: nat)
    requires AllDigits(ds, radix)
    requires tail == [] || DigitOf(tail[0]) >= radix
    ensures DigitRun(ds + tail, radix) == |ds|
    decreases |ds|
  {
    if ds != [] {
      assert (ds + tail)[1..] == ds[1..] + tail;
      DigitRunStops(ds[1..], tail, radix);
    } else {
      assert ds + tail == tail;
    }
  }

  /** The value of a digit string read by ParseDigits when a non-digit (or nothing) follows it. */
  lemma ParseDigitsThen(ds: string, tail: string, radix: nat)
    requires |ds| >= 1 && AllDigits(ds, radix)
    requires tail == [] || DigitOf(tail[0]) >= radix
    ensures ParseDigits(ds + tail, radix) == Some(ValueOf(ds, radix))
  {
    DigitRunStops(ds, tail, radix);
    assert (ds + tail)[..|ds|] == ds;
  }

  /**
   * What may follow the numeral of n without changing what `parseInt`
   * reads: nothing, or a character that is not a digit, and after a lone
   * `0` not an `x` or `X` either, which would make `0x` a hexadecimal prefix.
   */
  predicate EndsNumeral(n: int, tail: string) {
    tail == [] || (!IsDecimalDigit(tail[0]) && (n == 0 ==> tail[0] != 'x' && tail[0] != 'X'))
  }

  /** `parseInt` reads back the numeral of any integer followed by anything that ends the numeral. */
  lemma ParseIntString(n: int, tail: string)
    requires EndsNumeral(n, tail)
    ensures ParseInt(IntToString(n) + tail) == Some(n)
  {
    if n < 0 {
      ParseNegativeString(-n, tail);
    } else {
      ParseMagnitudeNumeral(n, tail);
      TrimStartKeeps(NatToDecimal(n) + tail);
    }
  }

  lemma ParseNegativeString(m: nat, tail: string)
    requires m > 0
    requires EndsNumeral(m, tail)
    ensures ParseInt(IntToString(-(m as int)) + tail) == Some(-(m as int))
  {
    var u := NatToDecimal(m) + tail;
    assert IntToString(-(m as int)) + tail == ['-'] + u;
    ParseMagnitudeNumeral(m, tail);
    ParseIntNegated(u);
  }

  /** A leading minus sign negates what follows it. */
  lemma ParseIntNegated(u: string)
    requires u != [] && IsDecimalDigit(u[0])
    ensures ParseInt(['-'] + u) == match ParseMagnitude(u) case None => None case Some(v) => Some(-(v as int))
  {
    var s := ['-'] + u;
    TrimStartKeeps(s);
    assert s[1..] == u;
  }

  lemma ParseMagnitudeNumeral(m: nat, tail: string)
    requires EndsNumeral(m, tail)
    ensures ParseMagnitude(NatToDecimal(m) + tail) == Some(m)
  {
    var d := NatToDecimal(m);
    ValueOfNatToDecimal(m);
    ParseDigitsThen(d, tail, 10);
    var u := d + tail;
    if |u| >= 2 && u[0] == '0' {
      assert m == 0 && |d| == 1;
      assert u[1] == tail[0];
    }
  }

  /** A minus sign followed by anything but a digit is NaN, as in `parseInt('-Infinity')`. */
  lemma ParseIntSignedNonDigit(u: string)
    requires u != [] && !IsDecimalDigit(u[0])
    ensures ParseInt(['-'] + u) == None
  {
    var s := ['-'] + u;
    TrimStartKeeps(s);
    assert s[1..] == u;
    assert DigitRun(u, 10) == 0;
  }

  lemma TrimStartKeeps(s: string)
    requires s != [] && (s[0] == '-' || IsDecimalDigit(s[0]))
    ensures TrimStart(s) == s
  {
  }

  /** `parseInt` of a non-empty string of decimal digits is its decimal value. */
  lemma ParseIntDigits(ds: string)
    requires |ds| >= 1 && AllDigits(ds, 10)
    ensures ParseInt(ds) == Some(ValueOf(ds, 10))
  {
    ParseDigitsThen(ds, [], 10);
    assert ds + [] == ds;
    TrimStartKeeps(ds);
    assert Unsigned(ds) == ds;
    assert ParseMagnitude(ds) == ParseDigits(ds, 10);
  }

  function Pow10(k: nat): (r: nat)
    ensures r >= 1
  {
    if k == 0 then 1 else 10 * Pow10(k - 1)
  }

  /** A string of k decimal digits denotes a number below 10^k. */
  lemma {:induction false} ValueOfBound(ds: string)
    requires AllDigits(ds, 10)
    ensures ValueOf(ds, 10) < Pow10(|ds|)
    decreases |ds|
  {
    if ds != [] {
      var init := ds[..|ds| - 1];
      assert AllDigits(init, 10) by {
        forall i | 0 <= i < |init| ensures DigitOf(init[i]) < 10 { assert init[i] == ds[i]; }
      }
      ValueOfBound(init);
      var v := ValueOf(init, 10);
      assert v + 1 <= Pow10(|init|);
      assert v * 10 + 10 <= Pow10(|init|) * 10;
    }
  }

  // ---------------------------------------------------------------------
  // the regular expression /\d{4}/

  predicate FourDigitsAt(s: string, i: nat) {
    i + 4 <= |s| && IsDecimalDigit(s[i]) && IsDecimalDigit(s[i + 1])
    && IsDecimalDigit(s[i + 2]) && IsDecimalDigit(s[i + 3])
  }

  /** `s.match(/\d{4}/)`: the position of the leftmost run of four digits, if any. */
  function MatchFourDigits(s: string): (r: Option<nat>)
    ensures r.Some? ==> FourDigitsAt(s, r.value)
    ensures r.Some? ==> forall j :: 0 <= j < r.value ==> !FourDigitsAt(s, j)
    ensures r.None? <==> forall j :: 0 <= j <= |s| ==> !FourDigitsAt(s, j)
  {
    MatchFrom(s, 0)
  }

  function MatchFrom(s: string, k: nat): (r: Option<nat>)
    requires k <= |s|
    ensures r.Some? ==> k <= r.value && FourDigitsAt(s, r.value)
    ensures r.Some? ==> forall j :: k <= j < r.value ==> !FourDigitsAt(s, j)
    ensures r.None? <==> forall j :: k <= j <= |s| ==> !FourDigitsAt(s, j)
    decreases |s| - k
  {
    if k + 4 > |s| then None
    else if FourDigitsAt(s, k) then Some(k)
    else MatchFrom(s, k + 1)
  }
}
