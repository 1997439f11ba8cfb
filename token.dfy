/** Token kinds, reserved words and operators (parser/token.go). */
module Tokens {

  datatype TokenType = Keyword | Identifier | Operator | Literal | Delimiter | Symbol

  datatype Token = Token(kind: TokenType, value: string)

  const SELECT: string := "SELECT"
  const FROM: string := "FROM"
  const WHERE: string := "WHERE"
  const INSERT: string := "INSERT"
  const INTO: string := "INTO"
  const VALUES: string := "VALUES"
  const UPDATE: string := "UPDATE"
  const SET: string := "SET"
  const DELETE: string := "DELETE"

  const WILDCARD: string := "*"
  const EQUALS: string := "="
  const AND: string := "AND"
  const OR: string := "OR"

  /** The nine words the `switch` in GetKeywordOrIdentifier lists. */
  const ReservedWords: set<string> := {SELECT, FROM, WHERE, INSERT, INTO, VALUES, UPDATE, SET, DELETE}

  function GetKeywordOrIdentifier(value: string): (t: TokenType)
    ensures t == Keyword || t == Identifier
    ensures t == Keyword <==> value in ReservedWords
  {
    match value
    case "SELECT" => Keyword
    case "FROM" => Keyword
    case "WHERE" => Keyword
    case "INSERT" => Keyword
    case "INTO" => Keyword
    case "VALUES" => Keyword
    case "UPDATE" => Keyword
    case "SET" => Keyword
    case "DELETE" => Keyword
    case _ => Identifier
  }

  function IsConditionalOperator(s: string): (b: bool)
    ensures b <==> s in {AND, OR}
  {
    match s
    case "AND" => true
    case "OR" => true
    case _ => false
  }

  /** True of a token of the given kind and text. */
  predicate Is(t: Token, kind: TokenType, value: string) {
    t.kind == kind && t.value == value
  }

  /** Matching is exact: lower-case words are identifiers. */
  lemma CaseSensitive()
    ensures GetKeywordOrIdentifier("select") == Identifier
    ensures GetKeywordOrIdentifier("Select") == Identifier
    ensures GetKeywordOrIdentifier("SELECT") == Keyword
    ensures !IsConditionalOperator("and") && IsConditionalOperator("AND")
  {
  }

  /** The connectives are not reserved words, and the two operator constants. */
  lemma VocabularyFacts()
    ensures ReservedWords !! {AND, OR}
    ensures |ReservedWords| == 9
    ensures WILDCARD == "*" && EQUALS == "="
  {
  }
}
