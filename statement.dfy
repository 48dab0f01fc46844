/**
 * The INSERT statement the use cases format, and what each kind of value
 * cell stands for when PostgreSQL reads it:
 *   - a text cell, NullIfEmpty(s) or NullIfEmpty(SafeString(s)), is NULL or
 *     a standard string constant;
 *   - a JSON cell, SafeJsonString(s), is an escape string constant;
 *   - an int cell, `%v` of an int, is a decimal literal;
 *   - a bool cell, `%v` of a bool, is true or false.
 * A cell "stores" a value when the reader of its kind gives that value back
 * and stops exactly at the end of the cell, whatever follows it (the ", "
 * before the next cell, or the closing ");").
 */
module Statement {
  import opened Wrappers
  import opened Text
  import SqlLiteral
  import Utility
  import opened Validation

  /** `INSERT INTO <table> (<columns>) VALUES(<values>);`, the shape of both format strings. */
  function InsertStatement(table: string, columns: seq<string>, values: seq<string>): string
  {
    "INSERT INTO " + table + " (" + Join(columns, ", ") + ") VALUES(" + Join(values, ", ") + ");"
  }

  /** What SafeString returns for `s`. */
  function Escaped(s: string): string
  {
    Utility.Doubled(s, '\'')
  }

  /**
   * A text cell for `s`: NULL exactly when `s` is one of the values
   * NullIfEmpty treats as empty ("" and "[]", so a field holding "[]" is
   * written NULL and lost), otherwise a constant that reads back as `s`.
   */
  ghost predicate StoresText(cell: string, s: string)
  {
    && (cell == "NULL" <==> s == "" || s == "[]")
    && (cell != "NULL" ==>
          forall rest | SqlLiteral.CanFollow(rest) :: SqlLiteral.ReadQuoted(cell + rest) == Some((s, rest)))
  }

  /** A JSON cell for `json`: an escape string constant that reads back as `json`. */
  ghost predicate StoresJson(cell: string, json: string)
  {
    forall rest | SqlLiteral.CanFollow(rest) :: SqlLiteral.ReadEscapeString(cell + rest) == Some((json, rest))
  }

  /** An int cell for `n`: a decimal literal of value `n`, never NULL. */
  predicate StoresInt(cell: string, n: int)
  {
    ParseDecimal(cell) == Some(n) && cell != "NULL"
  }

  /** NullIfEmpty(SafeString(s)) is NULL for "" and "[]", and otherwise stores `s`, quotes and all. */
  lemma EscapedTextStores(s: string)
    ensures StoresText(TextOrNull(Escaped(s)), s)
  {
    var d := Escaped(s);
    Utility.DoubledLength(s, '\'');
    if d == "[]" {
      Utility.CollapsedDoubled(s, '\'');
      assert Utility.Collapsed("[]", '\'') == "[]";
    }
    if s == "[]" {
      Utility.DoubledAbsent(s, '\'');
    }
    if d != "" && d != "[]" {
      forall rest | SqlLiteral.CanFollow(rest)
        ensures SqlLiteral.ReadQuoted(TextOrNull(d) + rest) == Some((s, rest))
      {
        Utility.SafeStringReadsBack(s, rest);
      }
    }
  }

  /** NullIfEmpty(s) without SafeString stores `s` only when `s` holds no quote. */
  lemma RawTextStores(s: string)
    requires '\'' !in s
    ensures StoresText(TextOrNull(s), s)
  {
    Utility.DoubledAbsent(s, '\'');
    EscapedTextStores(s);
  }

  /** A raw-quoted cell is NullIfEmpty(s) itself, and stores `s` when `s` holds no quote. */
  ghost predicate StoresTextOrBreaks(cell: string, s: string)
  {
    cell == TextOrNull(s) && ('\'' !in s ==> StoresText(cell, s))
  }

  lemma RawTextColumn(s: string)
    ensures StoresTextOrBreaks(TextOrNull(s), s)
  {
    if '\'' !in s {
      RawTextStores(s);
    }
  }

  /**
   * A quote in a text NullIfEmpty writes without SafeString ends the
   * constant early: "0812'5" is read as "0812", and what follows is left
   * over as SQL text.
   */
  lemma RawQuoteBreaksCell()
    ensures TextOrNull("0812'5") == "'0812'5'"
    ensures SqlLiteral.ReadQuoted(TextOrNull("0812'5")) == Some(("0812", "5'"))
    ensures !StoresText(TextOrNull("0812'5"), "0812'5")
  {
    var cell := "'0812'5'";
    assert TextOrNull("0812'5") == cell;
    ReadBrokenCell();
    assert cell + "" == cell;
    assert SqlLiteral.CanFollow("");
  }

  lemma ReadBrokenCell()
    ensures SqlLiteral.ReadQuoted("'0812'5'") == Some(("0812", "5'"))
  {
    assert "'5'"[1..] == "5'";
    assert SqlLiteral.ReadQuotedBody("'5'") == Some(("", "5'"));
    SqlLiteral.QuotedPlain('2', "'5'");
    assert ['2'] + "'5'" == "2'5'" && ['2'] + "" == "2";
    SqlLiteral.QuotedPlain('1', "2'5'");
    assert ['1'] + "2'5'" == "12'5'" && ['1'] + "2" == "12";
    SqlLiteral.QuotedPlain('8', "12'5'");
    assert ['8'] + "12'5'" == "812'5'" && ['8'] + "12" == "812";
    SqlLiteral.QuotedPlain('0', "812'5'");
    assert ['0'] + "812'5'" == "0812'5'" && ['0'] + "812" == "0812";
    SqlLiteral.QuotedStart("0812'5'");
    assert ['\''] + "0812'5'" == "'0812'5'";
  }

  /** SafeJsonString(json) stores `json`. */
  lemma JsonStores(json: string)
    ensures StoresJson(Utility.SafeJsonString(json), json)
  {
    forall rest | SqlLiteral.CanFollow(rest)
      ensures SqlLiteral.ReadEscapeString(Utility.SafeJsonString(json) + rest) == Some((json, rest))
    {
      Utility.SafeJsonStringReadsBack(json, rest);
    }
  }

  /** `%v` of an int stores it, zero included: zero is the literal 0, not NULL. */
  lemma IntStores(n: int)
    ensures StoresInt(DecimalText(n), n)
    ensures n == 0 ==> DecimalText(0) == "0"
  {
    assert ParseDecimal("NULL") == None;
  }
}
