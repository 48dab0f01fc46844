/**
 * The SQL literal encoders and the list search of utility/utility.go:
 * SafeString (quote doubling, one byte at a time), SafeJsonString
 * (backslash doubling, then quote doubling, inside E'…') and InArray
 * (first-index linear search). Each Go string byte is one `char` here.
 */
module Utility {
  import opened Wrappers
  import SqlLiteral

  // ---------------------------------------------------------------- doubling and its inverse

  /** `s` with every `c` written twice and every other character copied, in order. */
  function Doubled(s: string, c: char): string
    decreases |s|
  {
    if s == [] then []
    else (if s[0] == c then [c, c] else [s[0]]) + Doubled(s[1..], c)
  }

  /** Doubling adds one character per occurrence of `c`. */
  lemma {:induction false} DoubledLength(s: string, c: char)
    ensures |Doubled(s, c)| == |s| + multiset(s)[c]
    decreases |s|
  {
    if s != [] {
      assert s == [s[0]] + s[1..];
      DoubledLength(s[1..], c);
    }
  }

  /** Collapses each pair `cc` to one `c`, reading from the left; every other character is copied. */
  function Collapsed(t: string, c: char): string
    decreases |t|
  {
    if t == [] then []
    else if |t| >= 2 && t[0] == c && t[1] == c then [c] + Collapsed(t[2..], c)
    else [t[0]] + Collapsed(t[1..], c)
  }

  /** Every `c` of `t` belongs to a pair `cc`, pairs read from the left. */
  predicate Paired(t: string, c: char)
    decreases |t|
  {
    t == [] ||
    (t[0] != c && Paired(t[1..], c)) ||
    (|t| >= 2 && t[0] == c && t[1] == c && Paired(t[2..], c))
  }

  lemma {:induction false} DoubledAppend(a: string, b: string, c: char)
    ensures Doubled(a + b, c) == Doubled(a, c) + Doubled(b, c)
    decreases |a|
  {
    if a == [] {
      assert a + b == b;
    } else {
      assert (a + b)[0] == a[0];
      assert (a + b)[1..] == a[1..] + b;
      DoubledAppend(a[1..], b, c);
    }
  }

  /** Doubling `c` leaves every other character's count alone. */
  lemma {:induction false} DoubledKeepsOthers(s: string, c: char, d: char)
    requires c != d
    ensures multiset(Doubled(s, c))[d] == multiset(s)[d]
    decreases |s|
  {
    if s != [] {
      assert s == [s[0]] + s[1..];
      DoubledKeepsOthers(s[1..], c, d);
    }
  }

  /** Doubling a character that does not occur changes nothing. */
  lemma {:induction false} DoubledAbsent(s: string, c: char)
    requires c !in s
    ensures Doubled(s, c) == s
    decreases |s|
  {
    if s != [] {
      assert c !in s[1..] by {
        forall j | 0 <= j < |s| - 1 ensures s[1..][j] != c { assert s[1..][j] == s[j + 1]; }
      }
      DoubledAbsent(s[1..], c);
    }
  }

  /** Collapsing undoes doubling. */
  lemma {:induction false} CollapsedDoubled(s: string, c: char)
    ensures Collapsed(Doubled(s, c), c) == s
    decreases |s|
  {
    if s != [] {
      var rest := Doubled(s[1..], c);
      CollapsedDoubled(s[1..], c);
      if s[0] == c {
        assert ([c, c] + rest)[2..] == rest;
      } else {
        assert ([s[0]] + rest)[1..] == rest;
      }
    }
  }

  /** Doubling only ever produces paired text. */
  lemma {:induction false} DoubledIsPaired(s: string, c: char)
    ensures Paired(Doubled(s, c), c)
    decreases |s|
  {
    if s != [] {
      var rest := Doubled(s[1..], c);
      DoubledIsPaired(s[1..], c);
      if s[0] == c {
        assert ([c, c] + rest)[2..] == rest;
      } else {
        assert ([s[0]] + rest)[1..] == rest;
      }
    }
  }

  /** Every paired text is the doubling of its collapse, so Doubled maps onto exactly the paired texts. */
  lemma {:induction false} PairedIsDoubled(t: string, c: char)
    requires Paired(t, c)
    ensures Doubled(Collapsed(t, c), c) == t
    decreases |t|
  {
    if t != [] {
      if t[0] == c {
        PairedIsDoubled(t[2..], c);
        var rest := Collapsed(t[2..], c);
        assert ([c] + rest)[1..] == rest;
        assert t == [c, c] + t[2..];
      } else {
        PairedIsDoubled(t[1..], c);
        var rest := Collapsed(t[1..], c);
        assert ([t[0]] + rest)[1..] == rest;
        assert t == [t[0]] + t[1..];
      }
    }
  }

  // ---------------------------------------------------------------- SafeString

  /** utility.go SafeString: copies `sql` byte by byte into `dest`, writing each quote twice. */
  method SafeString(sql: string) returns (r: string)
    ensures r == Doubled(sql, '\'')
  {
    var dest: string := [];
    var i := 0;
    while i < |sql|
      invariant 0 <= i <= |sql|
      invariant dest == Doubled(sql[..i], '\'')
    {
      var c := sql[i];
      assert sql[..i + 1] == sql[..i] + [c];
      DoubledAppend(sql[..i], [c], '\'');
      if c == '\'' {
        dest := dest + ['\'', '\''];
      } else {
        dest := dest + [c];
      }
      i := i + 1;
    }
    assert sql[..i] == sql;
    r := dest;
  }

  /** SafeString's output is one byte longer than its input for each quote, and collapses back to it. */
  lemma SafeStringLength(s: string)
    ensures |Doubled(s, '\'')| == |s| + multiset(s)['\'']
    ensures Collapsed(Doubled(s, '\''), '\'') == s
    ensures Paired(Doubled(s, '\''), '\'')
  {
    DoubledLength(s, '\'');
    CollapsedDoubled(s, '\'');
    DoubledIsPaired(s, '\'');
  }

  /**
   * Quoting SafeString's output gives a standard string constant that
   * PostgreSQL reads back as exactly `s`, ending where the quoting ends.
   */
  lemma {:induction false} SafeStringReadsBack(s: string, rest: string)
    requires SqlLiteral.CanFollow(rest)
    ensures SqlLiteral.ReadQuoted("'" + Doubled(s, '\'') + "'" + rest) == Some((s, rest))
  {
    var tail := Doubled(s, '\'') + "'" + rest;
    assert "'" + Doubled(s, '\'') + "'" + rest == ['\''] + tail;
    SqlLiteral.QuotedStart(tail);
    QuotedBodyReadsBack(s, rest);
  }

  lemma {:induction false} QuotedBodyReadsBack(s: string, rest: string)
    requires SqlLiteral.CanFollow(rest)
    ensures SqlLiteral.ReadQuotedBody(Doubled(s, '\'') + "'" + rest) == Some((s, rest))
    decreases |s|
  {
    if s == [] {
      assert Doubled(s, '\'') + "'" + rest == ['\''] + rest;
      SqlLiteral.QuotedEnd(rest);
    } else {
      var x := s[0];
      var tail := Doubled(s[1..], '\'') + "'" + rest;
      QuotedBodyReadsBack(s[1..], rest);
      if x == '\'' {
        assert Doubled(s, '\'') + "'" + rest == ['\'', '\''] + tail;
        SqlLiteral.QuotedPair(tail);
      } else {
        assert Doubled(s, '\'') + "'" + rest == [x] + tail;
        SqlLiteral.QuotedPlain(x, tail);
      }
      assert s == [x] + s[1..];
    }
  }

  // ---------------------------------------------------------------- SafeJsonString

  /** The body SafeJsonString puts between E' and ': backslashes doubled first, then quotes. */
  function JsonBody(json: string): string
  {
    Doubled(Doubled(json, '\\'), '\'')
  }

  /** utility.go SafeJsonString: the JSON text as a PostgreSQL escape string constant. */
  function SafeJsonString(json: string): (r: string)
    ensures |r| == |json| + multiset(json)['\\'] + multiset(json)['\''] + 3
    ensures r[..2] == "E'" && r[|r| - 1] == '\''
    ensures '\\' !in json && '\'' !in json ==> r == "E'" + json + "'"
  {
    DoubledLength(json, '\\');
    DoubledLength(Doubled(json, '\\'), '\'');
    DoubledKeepsOthers(json, '\\', '\'');
    JsonBodyPlain(json);
    "E'" + JsonBody(json) + "'"
  }

  lemma JsonBodyPlain(json: string)
    ensures '\\' !in json && '\'' !in json ==> JsonBody(json) == json
  {
    if '\\' !in json && '\'' !in json {
      DoubledAbsent(json, '\\');
      DoubledAbsent(json, '\'');
    }
  }

  /** Undoing quote doubling, then backslash doubling, on the inner text gives the JSON back. */
  lemma SafeJsonStringUndo(json: string)
    ensures var r := SafeJsonString(json);
            Collapsed(Collapsed(r[2..|r| - 1], '\''), '\\') == json
  {
    var r := SafeJsonString(json);
    assert r[2..|r| - 1] == JsonBody(json);
    CollapsedDoubled(Doubled(json, '\\'), '\'');
    CollapsedDoubled(json, '\\');
  }

  /** The pieces the body is made of: one per character of the JSON text. */
  function JsonPiece(x: char): string
  {
    if x == '\\' then ['\\', '\\'] else if x == '\'' then ['\'', '\''] else [x]
  }

  lemma JsonBodyCons(s: string)
    requires s != []
    ensures JsonBody(s) == JsonPiece(s[0]) + JsonBody(s[1..])
  {
    var x := s[0];
    var inner := Doubled(s, '\\');
    assert inner == (if x == '\\' then ['\\', '\\'] else [x]) + Doubled(s[1..], '\\');
    DoubledAppend(if x == '\\' then ['\\', '\\'] else [x], Doubled(s[1..], '\\'), '\'');
    if x == '\\' {
      assert Doubled(['\\', '\\'], '\'') == ['\\', '\\'] by {
        assert ['\\', '\\'][1..] == ['\\'];
        assert ['\\'][1..] == [];
      }
    } else {
      assert [x][1..] == [];
    }
  }

  /**
   * PostgreSQL reads SafeJsonString's output as an escape string constant
   * whose value is exactly the JSON text, ending where the constant ends.
   */
  lemma SafeJsonStringReadsBack(json: string, rest: string)
    requires SqlLiteral.CanFollow(rest)
    ensures SqlLiteral.ReadEscapeString(SafeJsonString(json) + rest) == Some((json, rest))
  {
    var tail := JsonBody(json) + "'" + rest;
    assert SafeJsonString(json) + rest == ['E', '\''] + tail;
    SqlLiteral.EscapeStart(tail);
    EscapeBodyReadsBack(json, rest);
  }

  lemma {:induction false} EscapeBodyReadsBack(s: string, rest: string)
    requires SqlLiteral.CanFollow(rest)
    ensures SqlLiteral.ReadEscapeBody(JsonBody(s) + "'" + rest) == Some((s, rest))
    decreases |s|
  {
    var t := JsonBody(s) + "'" + rest;
    if s == [] {
      assert t == "'" + rest;
      assert t[1..] == rest;
    } else {
      var tail := JsonBody(s[1..]) + "'" + rest;
      JsonBodyCons(s);
      EscapeBodyReadsBack(s[1..], rest);
      assert t == JsonPiece(s[0]) + tail;
      if s[0] == '\\' || s[0] == '\'' {
        assert t[2..] == tail;
      } else {
        assert t[1..] == tail;
      }
      assert s == [s[0]] + s[1..];
    }
  }

  // ---------------------------------------------------------------- InArray

  /** utility.go InArray: the first index holding `val`, or (false, -1). */
  method InArray(val: string, items: seq<string>) returns (found: bool, index: int)
    ensures found <==> val in items
    ensures found ==> 0 <= index < |items| && items[index] == val
    ensures found ==> forall j | 0 <= j < index :: items[j] != val
    ensures !found ==> index == -1
  {
    found, index := false, -1;
    var i := 0;
    while i < |items|
      invariant 0 <= i <= |items|
      invariant forall j | 0 <= j < i :: items[j] != val
    {
      if val == items[i] {
        index := i;
        found := true;
        return;
      }
      i := i + 1;
    }
  }
}
