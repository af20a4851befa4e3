/** The JavaScript string semantics the application relies on: truthiness of
    possibly-missing strings, `startsWith`, `includes`, ASCII case mapping, `trim`,
    `slice`, `split`, decimal rendering of integers and `parseInt`. */
module JsString {
  import opened Wrappers

  /** JavaScript truthiness of a string that may be `undefined`: only a present,
      non-empty string is truthy. */
  predicate Truthy(s: Option<string>) {
    s.Some? && s.value != ""
  }

  /** `a || b` on possibly-missing strings. */
  function Or(a: Option<string>, b: Option<string>): Option<string> {
    if Truthy(a) then a else b
  }

  /** `a || d` where the default `d` is a string literal. */
  function OrDefault(a: Option<string>, d: string): string {
    if Truthy(a) then a.value else d
  }

  predicate StartsWith(s: string, prefix: string) {
    |prefix| <= |s| && s[..|prefix|] == prefix
  }

  /** `hay.includes(needle)`. */
  predicate Contains(hay: string, needle: string)
    decreases |hay|
  {
    StartsWith(hay, needle) || (|hay| > 0 && Contains(hay[1..], needle))
  }

  /** `includes` holds exactly when the needle occurs at some offset. */
  lemma {:induction false} ContainsIff(hay: string, needle: string)
    ensures Contains(hay, needle) <==> exists i :: 0 <= i <= |hay| && StartsWith(hay[i..], needle)
    decreases |hay|
  {
    assert hay[0..] == hay;
    if |hay| > 0 {
      ContainsIff(hay[1..], needle);
      if Contains(hay, needle) && !StartsWith(hay, needle) {
        var j :| 0 <= j <= |hay[1..]| && StartsWith(hay[1..][j..], needle);
        assert hay[1..][j..] == hay[j + 1..];
      }
      if exists i :: 0 <= i <= |hay| && StartsWith(hay[i..], needle) {
        var i :| 0 <= i <= |hay| && StartsWith(hay[i..], needle);
        if i > 0 {
          assert hay[1..][i - 1..] == hay[i..];
        }
      }
    }
  }

  function LowerChar(c: char): char {
    if 'A' <= c <= 'Z' then (c as int + 32) as char else c
  }

  function UpperChar(c: char): char {
    if 'a' <= c <= 'z' then (c as int - 32) as char else c
  }

  /** `toLowerCase()`, restricted to the ASCII letters. */
  function ToLower(s: string): (r: string)
    ensures |r| == |s|
    ensures forall i :: 0 <= i < |s| ==> r[i] == LowerChar(s[i])
  {
    seq(|s|, i requires 0 <= i < |s| => LowerChar(s[i]))
  }

  /** The characters `trim()` removes: ECMAScript WhiteSpace (tab, vertical tab,
      form feed, the Zs category, no-break space, byte order mark) and
      LineTerminator (LF, CR, LS, PS). */
  predicate IsSpace(c: char) {
    || c == ' ' || c == '\t' || c == '\n' || c == '\r'
    || c == '\U{B}' || c == '\U{C}' || c == '\U{A0}' || c == '\U{FEFF}'
    || c == '\U{1680}' || ('\U{2000}' <= c <= '\U{200A}')
    || c == '\U{2028}' || c == '\U{2029}' || c == '\U{202F}' || c == '\U{205F}' || c == '\U{3000}'
  }

  predicate AllSpace(s: string) {
    forall i :: 0 <= i < |s| ==> IsSpace(s[i])
  }

  function TrimStart(s: string): string
    decreases |s|
  {
    if |s| > 0 && IsSpace(s[0]) then TrimStart(s[1..]) else s
  }

  function TrimEnd(s: string): string
    decreases |s|
  {
    if |s| > 0 && IsSpace(s[|s| - 1]) then TrimEnd(s[..|s| - 1]) else s
  }

  /** `trim()`. */
  function Trim(s: string): string {
    TrimEnd(TrimStart(s))
  }

  lemma {:induction false} TrimStartSpec(s: string)
    ensures TrimStart(s) == [] <==> AllSpace(s)
    ensures TrimStart(s) != [] ==> !IsSpace(TrimStart(s)[0])
    decreases |s|
  {
    if |s| > 0 && IsSpace(s[0]) {
      TrimStartSpec(s[1..]);
      assert AllSpace(s[1..]) ==> AllSpace(s) by {
        if AllSpace(s[1..]) {
          forall i | 0 <= i < |s| ensures IsSpace(s[i]) {
            if i > 0 { assert s[i] == s[1..][i - 1]; }
          }
        }
      }
    }
  }

  lemma {:induction false} TrimEndSpec(s: string)
    ensures TrimEnd(s) == [] <==> AllSpace(s)
    decreases |s|
  {
    if |s| > 0 && IsSpace(s[|s| - 1]) {
      var init := s[..|s| - 1];
      TrimEndSpec(init);
      assert AllSpace(init) ==> AllSpace(s) by {
        if AllSpace(init) {
          forall i | 0 <= i < |s| ensures IsSpace(s[i]) {
            if i < |s| - 1 { assert s[i] == init[i]; }
          }
        }
      }
    }
  }

  /** `s.trim()` is empty exactly when every character of `s` is white space. */
  lemma TrimEmptyIff(s: string)
    ensures Trim(s) == [] <==> AllSpace(s)
  {
    TrimStartSpec(s);
    var t := TrimStart(s);
    TrimEndSpec(t);
    if t != [] {
      assert !IsSpace(t[0]);
      assert !AllSpace(t);
    }
  }

  /** `s.slice(0, n)` for a non-negative `n`. */
  function Take(s: string, n: nat): (r: string)
    ensures |r| == if n <= |s| then n else |s|
    ensures StartsWith(s, r)
  {
    if n <= |s| then s[..n] else s
  }

  /** `s.slice(-n)` for a positive `n`: the last `n` characters, or all of `s`. */
  function TakeLast(s: string, n: nat): (r: string)
    requires n > 0
    ensures |r| == if n <= |s| then n else |s|
    ensures r == s[|s| - |r|..]
  {
    if n <= |s| then s[|s| - n..] else s
  }

  /** `s.split(sep)` for a one-character separator. */
  function Split(s: string, sep: char): (parts: seq<string>)
    ensures |parts| >= 1
    ensures forall i :: 0 <= i < |parts| ==> sep !in parts[i]
    decreases |s|
  {
    if |s| == 0 then [""]
    else
      var rest := Split(s[1..], sep);
      if s[0] == sep then [""] + rest
      else [[s[0]] + rest[0]] + rest[1..]
  }

  function Join(parts: seq<string>, sep: char): string
    requires |parts| >= 1
    decreases |parts|
  {
    if |parts| == 1 then parts[0] else parts[0] + [sep] + Join(parts[1..], sep)
  }

  /** Splitting loses nothing: joining the pieces with the separator gives `s` back. */
  lemma {:induction false} JoinSplit(s: string, sep: char)
    ensures Join(Split(s, sep), sep) == s
    decreases |s|
  {
    if |s| > 0 {
      var rest := Split(s[1..], sep);
      JoinSplit(s[1..], sep);
      var parts := Split(s, sep);
      if s[0] == sep {
        assert parts[1..] == rest;
        assert s == [sep] + s[1..];
      } else {
        assert parts[0] == [s[0]] + rest[0];
        if |rest| == 1 {
          assert s == [s[0]] + s[1..];
        } else {
          assert parts[1..] == rest[1..];
          assert s == [s[0]] + s[1..];
        }
      }
    }
  }

  lemma {:induction false} SplitWithoutSeparator(s: string, sep: char)
    requires sep !in s
    ensures Split(s, sep) == [s]
    decreases |s|
  {
    if |s| > 0 {
      SplitWithoutSeparator(s[1..], sep);
      assert [s[0]] + s[1..] == s;
    }
  }

  lemma {:induction false} SplitAfterWord(w: string, sep: char, rest: string)
    requires sep !in w
    ensures Split(w + [sep] + rest, sep) == [w] + Split(rest, sep)
    decreases |w|
  {
    var s := w + [sep] + rest;
    if |w| == 0 {
      assert s[1..] == rest;
    } else {
      assert s[1..] == w[1..] + [sep] + rest;
      SplitAfterWord(w[1..], sep, rest);
      assert [w[0]] + w[1..] == w;
    }
  }

  function DigitChar(d: nat): (c: char)
    requires d < 10
    ensures '0' <= c <= '9'
  {
    ('0' as int + d) as char
  }

  /** Decimal rendering of a non-negative integer, as in a template literal. */
  function NatToString(n: nat): (r: string)
    ensures |r| >= 1
    ensures forall i :: 0 <= i < |r| ==> '0' <= r[i] <= '9'
    decreases n
  {
    if n < 10 then [DigitChar(n)] else NatToString(n / 10) + [DigitChar(n % 10)]
  }

  /** The value of `c` as a digit in the given radix, if it is one. */
  function DigitValue(c: char, radix: nat): (r: Option<nat>)
    ensures r.Some? ==> r.value < radix
  {
    var v: int :=
      if '0' <= c <= '9' then c as int - '0' as int
      else if 'a' <= c <= 'z' then c as int - 'a' as int + 10
      else if 'A' <= c <= 'Z' then c as int - 'A' as int + 10
      else 36;
    if v < radix then Some(v) else None
  }

  predicate AllDigits(s: string, radix: nat) {
    forall i :: 0 <= i < |s| ==> DigitValue(s[i], radix).Some?
  }

  /** Length of the longest prefix of `s` made of radix digits. */
  function DigitPrefixLen(s: string, radix: nat): (n: nat)
    ensures n <= |s|
    ensures AllDigits(s[..n], radix)
    ensures n < |s| ==> DigitValue(s[n], radix).None?
    decreases |s|
  {
    if |s| > 0 && DigitValue(s[0], radix).Some? then
      var k := DigitPrefixLen(s[1..], radix);
      assert s[..k + 1] == [s[0]] + s[1..][..k];
      k + 1
    else 0
  }

  /** The number a run of digits denotes in the given radix. */
  function DigitsValue(ds: string, radix: nat): nat
    requires AllDigits(ds, radix)
    decreases |ds|
  {
    if |ds| == 0 then 0
    else DigitsValue(ds[..|ds| - 1], radix) * radix + DigitValue(ds[|ds| - 1], radix).value
  }

  /** The longest digit prefix of `body` read in `radix`; no digit at all is `NaN`. */
  function ParseDigits(body: string, radix: nat): Option<nat> {
    var k := DigitPrefixLen(body, radix);
    if k == 0 then None else Some(DigitsValue(body[..k], radix))
  }

  /** An unsigned numeral: a `0x`/`0X` prefix selects radix 16, otherwise radix 10. */
  function ParseUnsigned(u: string): Option<nat> {
    if |u| >= 2 && u[0] == '0' && (u[1] == 'x' || u[1] == 'X') then ParseDigits(u[2..], 16)
    else ParseDigits(u, 10)
  }

  function Negate(v: Option<nat>): Option<int> {
    match v
    case None => None
    case Some(n) => Some(0 - n as int)
  }

  function Widen(v: Option<nat>): Option<int> {
    match v
    case None => None
    case Some(n) => var m: int := n; Some(m)
  }

  /** One optional sign, then an unsigned numeral. `-0` is 0. */
  function ParseSigned(s: string): Option<int> {
    if |s| > 0 && s[0] == '-' then Negate(ParseUnsigned(s[1..]))
    else if |s| > 0 && s[0] == '+' then Widen(ParseUnsigned(s[1..]))
    else Widen(ParseUnsigned(s))
  }

  /** `parseInt(s)` without a radix argument; `None` is `NaN`. A missing value is
      `NaN` because `parseInt(undefined)` parses the text "undefined". Leading white
      space is skipped before the sign. */
  function ParseInt(input: Option<string>): (r: Option<int>)
    ensures input.None? ==> r.None?
    ensures r.Some? ==> input.Some? && StartsNumeral(TrimStart(input.value))
  {
    if input.None? then None
    else
      ParseSignedStartsNumeral(TrimStart(input.value));
      ParseSigned(TrimStart(input.value))
  }

  /** Text whose first character is a decimal digit, or a sign followed by one:
      anything else makes `parseInt` return `NaN`. */
  predicate StartsNumeral(t: string) {
    (|t| > 0 && '0' <= t[0] <= '9') ||
    (|t| > 1 && (t[0] == '-' || t[0] == '+') && '0' <= t[1] <= '9')
  }

  lemma ParseSignedStartsNumeral(t: string)
    ensures ParseSigned(t).Some? ==> StartsNumeral(t)
  {
    if |t| > 0 && (t[0] == '-' || t[0] == '+') {
      assert ParseUnsigned(t[1..]).Some? ==> |t[1..]| > 0 && DigitValue(t[1..][0], 10).Some?;
    } else {
      assert ParseUnsigned(t).Some? ==> |t| > 0 && DigitValue(t[0], 10).Some?;
    }
  }

  lemma {:induction false} DigitsValueOfNatToString(n: nat)
    ensures AllDigits(NatToString(n), 10)
    ensures DigitsValue(NatToString(n), 10) == n
    decreases n
  {
    var r := NatToString(n);
    if n >= 10 {
      DigitsValueOfNatToString(n / 10);
      assert r[..|r| - 1] == NatToString(n / 10);
    }
  }

  lemma DigitIsNotSpace(c: char)
    requires '0' <= c <= '9'
    ensures !IsSpace(c)
  {
  }

  /** `parseInt` stops where the digits stop. */
  lemma {:induction false} DigitPrefixLenIs(t: string, k: nat)
    requires k <= |t| && AllDigits(t[..k], 10)
    requires k < |t| ==> DigitValue(t[k], 10).None?
    ensures DigitPrefixLen(t, 10) == k
    decreases k
  {
    if k > 0 {
      assert DigitValue(t[..k][0], 10).Some?;
      var w := t[1..][..k - 1];
      assert AllDigits(w, 10) by {
        forall i | 0 <= i < |w| ensures DigitValue(w[i], 10).Some? {
          assert w[i] == t[..k][i + 1];
        }
      }
      DigitPrefixLenIs(t[1..], k - 1);
    }
  }

  /** `parseInt` of a text that starts with `k` decimal digits and goes on, if at
      all, with neither a digit nor an `x`: the value of those digits. */
  lemma ParseIntOfDecimalPrefix(t: string, k: nat)
    requires 0 < k <= |t|
    requires forall i :: 0 <= i < k ==> '0' <= t[i] <= '9'
    requires k < |t| ==> DigitValue(t[k], 10).None? && t[k] != 'x' && t[k] != 'X'
    ensures AllDigits(t[..k], 10)
    ensures ParseInt(Some(t)) == Some(DigitsValue(t[..k], 10))
  {
    assert AllDigits(t[..k], 10) by {
      forall i | 0 <= i < k ensures DigitValue(t[..k][i], 10).Some? {
        assert t[..k][i] == t[i];
      }
    }
    DigitIsNotSpace(t[0]);
    assert TrimStart(t) == t;
    DigitPrefixLenIs(t, k);
    var v := DigitsValue(t[..k], 10);
    assert ParseDigits(t, 10) == Some(v);
    assert !(|t| >= 2 && t[0] == '0' && (t[1] == 'x' || t[1] == 'X')) by {
      if |t| >= 2 {
        if k >= 2 { assert '0' <= t[1] <= '9'; } else { assert t[1] == t[k]; }
      }
    }
    assert ParseUnsigned(t) == Some(v);
    assert t[0] != '-' && t[0] != '+';
  }

  /** `parseInt` reads back what a template literal writes for a non-negative integer. */
  lemma ParseIntOfNatToString(n: nat)
    ensures ParseInt(Some(NatToString(n))) == Some(n)
  {
    var s := NatToString(n);
    DigitsValueOfNatToString(n);
    ParseIntOfDecimalPrefix(s, |s|);
    assert s[..|s|] == s;
  }
}
