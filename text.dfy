/**
 * Text helpers that stand for the Go standard library calls the core makes:
 * `strings.ToLower`, `strings.Contains`, `fmt.Sprintf("%d", n)` and the
 * comma-separated argument lists of `fmt.Sprintf`. A decimal parser is the
 * partner of the decimal formatter.
 */
module Text {
  import opened Wrappers

  // ---------------------------------------------------------------- case

  /** ASCII lower-casing of one character. */
  function LowerChar(c: char): (r: char)
    ensures 'A' <= c <= 'Z' ==> 'a' <= r <= 'z'
    ensures !('A' <= c <= 'Z') ==> r == c
  {
    if 'A' <= c <= 'Z' then (c as int + 32) as char else c
  }

  /** `strings.ToLower`, restricted to ASCII letters. */
  function ToLower(s: string): (r: string)
    ensures |r| == |s|
    ensures forall i | 0 <= i < |s| :: r[i] == LowerChar(s[i])
  {
    seq(|s|, i requires 0 <= i < |s| => LowerChar(s[i]))
  }

  /** Lower-casing twice is lower-casing once. */
  lemma ToLowerIdempotent(s: string)
    ensures ToLower(ToLower(s)) == ToLower(s)
  {
    var once := ToLower(s);
    forall i | 0 <= i < |s|
      ensures ToLower(once)[i] == once[i]
    {
      assert once[i] == LowerChar(s[i]);
    }
  }

  /** Lower-casing distributes over concatenation. */
  lemma ToLowerAppend(a: string, b: string)
    ensures ToLower(a + b) == ToLower(a) + ToLower(b)
  {
    var l := ToLower(a + b);
    var r := ToLower(a) + ToLower(b);
    forall i | 0 <= i < |a + b|
      ensures l[i] == r[i]
    {
      if i < |a| {
        assert (a + b)[i] == a[i];
      } else {
        assert (a + b)[i] == b[i - |a|];
      }
    }
  }

  // ---------------------------------------------------------------- substrings

  predicate StartsWith(s: string, prefix: string)
  {
    |prefix| <= |s| && s[..|prefix|] == prefix
  }

  /** `strings.Contains(s, key)`: `key` occurs somewhere in `s`. */
  predicate Contains(s: string, key: string)
    decreases |s|
  {
    StartsWith(s, key) || (|s| > 0 && Contains(s[1..], key))
  }

  /** A key that holds a character `s` lacks does not occur in `s`. */
  lemma {:induction false} ContainsNeedsEveryChar(s: string, key: string, c: char)
    requires c in key && c !in s
    ensures !Contains(s, key)
    decreases |s|
  {
    if |s| > 0 {
      assert c !in s[1..] by {
        forall j | 0 <= j < |s| - 1 ensures s[1..][j] != c {
          assert s[1..][j] == s[j + 1];
        }
      }
      ContainsNeedsEveryChar(s[1..], key, c);
    }
  }

  /** A key occurs in any text that starts with it and goes on. */
  lemma ContainsPrefix(key: string, rest: string)
    ensures Contains(key + rest, key)
  {
    assert (key + rest)[..|key|] == key;
  }

  /** A key occurs in any text that ends with it. */
  lemma {:induction false} ContainsSuffix(front: string, key: string)
    ensures Contains(front + key, key)
    decreases |front|
  {
    if front == [] {
      ContainsPrefix(key, []);
      assert key + [] == key && front + key == key;
    } else {
      ContainsSuffix(front[1..], key);
      assert (front + key)[1..] == front[1..] + key;
    }
  }

  // ---------------------------------------------------------------- decimal numbers

  predicate IsDigit(c: char)
  {
    '0' <= c <= '9'
  }

  predicate AllDigits(s: string)
  {
    forall i | 0 <= i < |s| :: IsDigit(s[i])
  }

  function DigitChar(d: nat): (c: char)
    requires d < 10
    ensures IsDigit(c) && c as int - '0' as int == d
  {
    ('0' as int + d) as char
  }

  /** The value of a string of decimal digits, most significant first. */
  function DigitsValue(s: string): nat
    requires AllDigits(s)
    decreases |s|
  {
    if s == [] then 0
    else DigitsValue(s[..|s| - 1]) * 10 + (s[|s| - 1] as int - '0' as int)
  }

  /** The decimal digits of `n`, with no leading zero. */
  function Digits(n: nat): (r: string)
    ensures |r| > 0 && AllDigits(r)
    ensures r[0] == '0' ==> n == 0
    decreases n
  {
    if n < 10 then [DigitChar(n)] else Digits(n / 10) + [DigitChar(n % 10)]
  }

  /** `fmt.Sprintf("%d", n)` (and `%v` on an int): an optional minus sign and the digits. */
  function DecimalText(n: int): (r: string)
    ensures |r| > 0 && (r[0] == '-' || IsDigit(r[0]))
    ensures ParseDecimal(r) == Some(n)
  {
    if n < 0 then
      DigitsRoundTrip(-n);
      assert ("-" + Digits(-n))[1..] == Digits(-n);
      "-" + Digits(-n)
    else
      DigitsRoundTrip(n);
      Digits(n)
  }

  /** Reads an optionally signed decimal integer; the reference reader for `DecimalText`. */
  function ParseDecimal(s: string): Option<int>
  {
    if |s| > 1 && s[0] == '-' && AllDigits(s[1..]) then Some(-(DigitsValue(s[1..]) as int))
    else if |s| > 0 && AllDigits(s) then Some(DigitsValue(s))
    else None
  }

  lemma {:induction false} DigitsRoundTrip(n: nat)
    ensures DigitsValue(Digits(n)) == n
    decreases n
  {
    if n >= 10 {
      var d := Digits(n / 10);
      var t := d + [DigitChar(n % 10)];
      assert t[..|t| - 1] == d;
      DigitsRoundTrip(n / 10);
    }
  }

  // ---------------------------------------------------------------- lists

  /** The elements of `parts` separated by `sep`, as the `%v, %v, …` list of a format string. */
  function Join(parts: seq<string>, sep: string): string
  {
    if |parts| == 0 then ""
    else if |parts| == 1 then parts[0]
    else parts[0] + sep + Join(parts[1..], sep)
  }

  /** `fmt.Sprintf("%v", b)` on a bool. */
  function BoolText(b: bool): (r: string)
    ensures r == "true" || r == "false"
    ensures (r == "true") == b
  {
    if b then "true" else "false"
  }
}
