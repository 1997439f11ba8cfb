/**
 * The WHERE tree of parser/parser.go: `parseWhereByToken` and `ParseWhere`.
 * A run of condition tokens `name op value (connective name op value)*`
 * becomes a binary tree that splits at the first connective, so the
 * conditions hang down the right spine.
 */
module WhereBuilder {
  import opened Outcomes
  import opened Tokens
  import opened Ast

  /** One condition `name op value`: the operator at the node, name and value below. */
  function Condition(name: string, op: string, value: string): WhereClause {
    WhereClause(op, Some(EmptyClause.(name := name)), Some(EmptyClause.(value := value)), "", "")
  }

  /** parseWhereByToken: a leaf for three tokens, else split at token 3. */
  function WhereByToken(tokens: seq<Token>): (r: Outcome<WhereClause>)
    ensures r.Ok? <==> |tokens| % 4 == 3
    ensures !r.Err?
    decreases |tokens|
  {
    if |tokens| == 3 then Ok(Condition(tokens[0].value, tokens[1].value, tokens[2].value))
    else if |tokens| < 4 then Panic(IndexOutOfRange)
    else
      var left := WhereByToken(tokens[..3]).value;
      var right :- WhereByToken(tokens[4..]);
      Ok(WhereClause(tokens[3].value, Some(left), Some(right), "", ""))
  }

  /** The node reached by following `right` k times. */
  function Spine(c: WhereClause, k: nat): Option<WhereClause>
    decreases k
  {
    if k == 0 then Some(c)
    else match c.right
      case None => None
      case Some(r) => Spine(r, k - 1)
  }

  /** The condition made of tokens i, i+1 and i+2. */
  function ConditionAt(tokens: seq<Token>, i: nat): WhereClause
    requires i + 3 <= |tokens|
  {
    Condition(tokens[i].value, tokens[i + 1].value, tokens[i + 2].value)
  }

  /**
   * The shape of the tree: the node k steps down the right spine holds the
   * connective at 4k+3 and, on its left, the condition at 4k; the last
   * spine node is the last condition itself.
   */
  lemma {:induction false} WhereSpine(tokens: seq<Token>, k: nat)
    requires WhereByToken(tokens).Ok?
    requires 4 * k + 3 <= |tokens|
    ensures 4 * k + 3 < |tokens| ==>
      Spine(WhereByToken(tokens).value, k)
        == Some(WhereClause(tokens[4 * k + 3].value, Some(ConditionAt(tokens, 4 * k)),
                            Spine(WhereByToken(tokens).value, k + 1), "", ""))
    ensures 4 * k + 3 == |tokens| ==>
      Spine(WhereByToken(tokens).value, k) == Some(ConditionAt(tokens, 4 * k))
  {
    var c := WhereByToken(tokens).value;
    if |tokens| == 3 {
    } else {
      var rest := tokens[4..];
      assert c == WhereClause(tokens[3].value, Some(ConditionAt(tokens, 0)), Some(WhereByToken(rest).value), "", "") by {
        assert WhereByToken(tokens[..3]) == Ok(ConditionAt(tokens, 0));
      }
      if k > 0 {
        WhereSpine(rest, k - 1);
        assert rest[4 * (k - 1)..4 * (k - 1) + 3] == tokens[4 * k..4 * k + 3];
        assert ConditionAt(rest, 4 * (k - 1)) == ConditionAt(tokens, 4 * k) by {
          assert rest[4 * (k - 1)] == tokens[4 * k];
          assert rest[4 * (k - 1) + 1] == tokens[4 * k + 1];
          assert rest[4 * (k - 1) + 2] == tokens[4 * k + 2];
        }
        if 4 * k + 3 < |tokens| {
          assert rest[4 * (k - 1) + 3] == tokens[4 * k + 3];
        }
      }
    }
  }

  /** The names of the conditions are the tokens at 0, 4, 8, ... */
  lemma LeafNames(tokens: seq<Token>, k: nat)
    requires WhereByToken(tokens).Ok? && 4 * k + 3 < |tokens|
    ensures Spine(WhereByToken(tokens).value, k).Some?
    ensures Spine(WhereByToken(tokens).value, k).value.left.Some?
    ensures Spine(WhereByToken(tokens).value, k).value.left.value.left == Some(EmptyClause.(name := tokens[4 * k].value))
  {
    WhereSpine(tokens, k);
  }

  /**
   * ParseWhere: no tree for an empty stream or one whose first token is
   * neither a KEYWORD nor the word WHERE; else the tree of the rest.
   */
  function ParseWhere(tokens: seq<Token>): (r: Outcome<Option<WhereClause>>)
    ensures r == Ok(None) <==> |tokens| == 0 || (tokens[0].kind != Keyword && tokens[0].value != WHERE)
    ensures r.Ok? <==> |tokens| == 0 || (tokens[0].kind != Keyword && tokens[0].value != WHERE) || |tokens| % 4 == 0
    ensures r.Ok? && r.value.Some? ==> r.value == Some(WhereByToken(tokens[1..]).value)
    ensures !r.Err?
  {
    if |tokens| == 0 then Ok(None)
    else if tokens[0].kind != Keyword && tokens[0].value != WHERE then Ok(None)
    else
      var root :- WhereByToken(tokens[1..]);
      Ok(Some(root))
  }

  /**
   * Two connectives group to the right: `a AND b OR c` is `a AND (b OR c)`,
   * whatever their kinds.
   */
  lemma GroupsToTheRight(a: seq<Token>, and: Token, b: seq<Token>, or: Token, c: seq<Token>)
    requires |a| == 3 && |b| == 3 && |c| == 3
    ensures WhereByToken(a + [and] + b + [or] + c)
      == Ok(WhereClause(and.value, Some(ConditionAt(a, 0)),
                        Some(WhereClause(or.value, Some(ConditionAt(b, 0)), Some(ConditionAt(c, 0)), "", "")), "", ""))
  {
    var ts := a + [and] + b + [or] + c;
    assert ts[..3] == a;
    assert ts[4..] == b + [or] + c;
    assert (b + [or] + c)[..3] == b;
    assert (b + [or] + c)[4..] == c;
    assert WhereByToken(c) == Ok(ConditionAt(c, 0));
    assert WhereByToken(b) == Ok(ConditionAt(b, 0));
    assert WhereByToken(a) == Ok(ConditionAt(a, 0));
    assert WhereByToken(b + [or] + c)
      == Ok(WhereClause(or.value, Some(ConditionAt(b, 0)), Some(ConditionAt(c, 0)), "", ""));
  }

  /** The tree for `id = 1 AND age = 18 OR email = 'x'`. */
  lemma MixedConnectivesExample()
    ensures ParseWhere([Token(Keyword, "WHERE"),
                        Token(Identifier, "id"), Token(Operator, "="), Token(Literal, "1"),
                        Token(Operator, "AND"),
                        Token(Identifier, "age"), Token(Operator, "="), Token(Literal, "18"),
                        Token(Operator, "OR"),
                        Token(Identifier, "email"), Token(Operator, "="), Token(Literal, "x")])
      == Ok(Some(WhereClause("AND", Some(Condition("id", "=", "1")),
                             Some(WhereClause("OR", Some(Condition("age", "=", "18")),
                                              Some(Condition("email", "=", "x")), "", "")), "", "")))
  {
    var a := [Token(Identifier, "id"), Token(Operator, "="), Token(Literal, "1")];
    var b := [Token(Identifier, "age"), Token(Operator, "="), Token(Literal, "18")];
    var c := [Token(Identifier, "email"), Token(Operator, "="), Token(Literal, "x")];
    var ts := [Token(Keyword, "WHERE"),
               Token(Identifier, "id"), Token(Operator, "="), Token(Literal, "1"),
               Token(Operator, "AND"),
               Token(Identifier, "age"), Token(Operator, "="), Token(Literal, "18"),
               Token(Operator, "OR"),
               Token(Identifier, "email"), Token(Operator, "="), Token(Literal, "x")];
    assert ts[1..] == a + [Token(Operator, "AND")] + b + [Token(Operator, "OR")] + c;
    GroupsToTheRight(a, Token(Operator, "AND"), b, Token(Operator, "OR"), c);
  }
}
