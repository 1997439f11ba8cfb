/**
 * Byte classes of the lexer (util/charutil.go).  A Go string is indexed by
 * byte; the model represents each byte by the character of the same code,
 * so a `Byte` is a character below 256.
 */
module CharUtil {

  type Byte = c: char | c as int < 256 witness 'a'

  predicate IsWhitespace(c: char) {
    c == ' ' || c == '\t' || c == '\n' || c == '\r'
  }

  predicate IsLetter(c: char) {
    ('a' <= c <= 'z') || ('A' <= c <= 'Z')
  }

  predicate IsDigit(c: char) {
    '0' <= c <= '9'
  }

  // Membership in the operator string of the source (strings.ContainsRune).
  predicate IsOperator(c: char) {
    c in "+-*/=<>!"
  }

  predicate IsDelimiter(c: char) {
    c in ","
  }

  predicate IsSymbol(c: char) {
    c in "();"
  }

  /** The two characters that open and close a quoted literal. */
  predicate IsQuote(c: char) {
    c == '\'' || c == '"'
  }

  /** How many of the six classes a character belongs to. */
  function ClassCount(c: char): (n: nat)
    ensures n <= 6
  {
    (if IsWhitespace(c) then 1 else 0) + (if IsLetter(c) then 1 else 0)
    + (if IsDigit(c) then 1 else 0) + (if IsOperator(c) then 1 else 0)
    + (if IsDelimiter(c) then 1 else 0) + (if IsSymbol(c) then 1 else 0)
  }

  /** Each operator class is exactly the listed set of bytes. */
  lemma OperatorClassesExact(c: char)
    ensures IsOperator(c) <==> c in {'+', '-', '*', '/', '=', '<', '>', '!'}
    ensures IsDelimiter(c) <==> c == ','
    ensures IsSymbol(c) <==> c in {'(', ')', ';'}
  {
  }

  /** No character is in two classes, and a quote is in none. */
  lemma ClassesDisjoint(c: char)
    ensures ClassCount(c) <= 1
    ensures IsQuote(c) ==> ClassCount(c) == 0
  {
  }

  /** Every classified character is ASCII. */
  lemma ClassesAreAscii(c: char)
    requires ClassCount(c) == 1
    ensures c as int < 128
  {
  }
}
