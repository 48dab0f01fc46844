/**
 * How PostgreSQL reads the two kinds of string constant the commands use
 * (section 4.1.2 of the PostgreSQL manual, "String Constants"):
 *   - a standard string constant '…' (with standard_conforming_strings on,
 *     the default since PostgreSQL 9.1), where '' stands for one quote and
 *     a lone quote ends the constant;
 *   - an escape string constant E'…', where in addition a backslash starts
 *     an escape sequence.
 * Each reader returns the value of the constant at the start of the text and
 * the text that follows it, or None when the text does not start with a
 * complete constant. These readers are the reference against which the
 * encoders of utility.go are proved.
 */
module SqlLiteral {
  import opened Wrappers

  /** Puts `c` in front of the value of a successful read. */
  function Prepend(c: char, r: Option<(string, string)>): Option<(string, string)>
  {
    match r
    case None => None
    case Some(p) => Some(([c] + p.0, p.1))
  }

  /** Reads a standard constant's body, its opening quote already consumed. */
  function ReadQuotedBody(t: string): Option<(string, string)>
    decreases |t|
  {
    if t == [] then None
    else if t[0] == '\'' then
      if |t| >= 2 && t[1] == '\'' then Prepend('\'', ReadQuotedBody(t[2..]))
      else Some(([], t[1..]))
    else Prepend(t[0], ReadQuotedBody(t[1..]))
  }

  /** Reads a standard string constant '…' at the start of `t`. */
  function ReadQuoted(t: string): Option<(string, string)>
  {
    if |t| > 0 && t[0] == '\'' then ReadQuotedBody(t[1..]) else None
  }

  /**
   * The character a backslash followed by `c` stands for in an escape string
   * constant: \b \f \n \r \t are control characters and any other character
   * stands for itself. Octal (\1 … \7, \0), hexadecimal (\x) and Unicode
   * (\u, \U) escapes are not modelled and give None.
   */
  function BackslashEscape(c: char): Option<char>
  {
    if c == 'b' then Some(8 as char)
    else if c == 'f' then Some(12 as char)
    else if c == 'n' then Some('\n')
    else if c == 'r' then Some('\r')
    else if c == 't' then Some('\t')
    else if '0' <= c <= '7' || c == 'x' || c == 'u' || c == 'U' then None
    else Some(c)
  }

  /** Reads an escape constant's body, its opening E' already consumed. */
  function ReadEscapeBody(t: string): Option<(string, string)>
    decreases |t|
  {
    if t == [] then None
    else if t[0] == '\'' then
      if |t| >= 2 && t[1] == '\'' then Prepend('\'', ReadEscapeBody(t[2..]))
      else Some(([], t[1..]))
    else if t[0] == '\\' then
      if |t| < 2 then None
      else match BackslashEscape(t[1])
        case None => None
        case Some(c) => Prepend(c, ReadEscapeBody(t[2..]))
    else Prepend(t[0], ReadEscapeBody(t[1..]))
  }

  /** Reads an escape string constant E'…' (or e'…') at the start of `t`. */
  function ReadEscapeString(t: string): Option<(string, string)>
  {
    if |t| >= 2 && (t[0] == 'E' || t[0] == 'e') && t[1] == '\'' then ReadEscapeBody(t[2..]) else None
  }

  /** Text that can follow a string constant without being read as part of it. */
  predicate CanFollow(rest: string)
  {
    rest == [] || rest[0] != '\''
  }

  // One step of each reader, for proofs about texts built piece by piece.

  lemma QuotedStart(tail: string)
    ensures ReadQuoted(['\''] + tail) == ReadQuotedBody(tail)
  {
    assert (['\''] + tail)[1..] == tail;
  }

  lemma EscapeStart(tail: string)
    ensures ReadEscapeString(['E', '\''] + tail) == ReadEscapeBody(tail)
  {
    assert (['E', '\''] + tail)[2..] == tail;
  }

  lemma QuotedEnd(rest: string)
    requires CanFollow(rest)
    ensures ReadQuotedBody(['\''] + rest) == Some(([], rest))
  {
    assert (['\''] + rest)[1..] == rest;
  }

  lemma QuotedPair(tail: string)
    ensures ReadQuotedBody(['\'', '\''] + tail) == Prepend('\'', ReadQuotedBody(tail))
  {
    assert (['\'', '\''] + tail)[2..] == tail;
  }

  lemma QuotedPlain(x: char, tail: string)
    requires x != '\''
    ensures ReadQuotedBody([x] + tail) == Prepend(x, ReadQuotedBody(tail))
  {
    assert ([x] + tail)[1..] == tail;
  }

  lemma EscapeEnd(rest: string)
    requires CanFollow(rest)
    ensures ReadEscapeBody(['\''] + rest) == Some(([], rest))
  {
    assert (['\''] + rest)[1..] == rest;
  }

  lemma EscapePair(x: char, tail: string)
    requires x == '\'' || x == '\\'
    ensures ReadEscapeBody([x, x] + tail) == Prepend(x, ReadEscapeBody(tail))
  {
    assert ([x, x] + tail)[2..] == tail;
  }

  lemma EscapePlain(x: char, tail: string)
    requires x != '\'' && x != '\\'
    ensures ReadEscapeBody([x] + tail) == Prepend(x, ReadEscapeBody(tail))
  {
    assert ([x] + tail)[1..] == tail;
  }
}
