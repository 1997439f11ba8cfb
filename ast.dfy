/** The statement and clause values of parser/ast_node.go. */
module Ast {
  import opened Outcomes

  /** A node of the WHERE tree; fields a node does not use are empty. */
  datatype WhereClause = WhereClause(
    kind: string,
    left: Option<WhereClause>,
    right: Option<WhereClause>,
    name: string,
    value: string)

  const EmptyClause: WhereClause := WhereClause("", None, None, "", "")

  datatype SelectStatement = SelectStatement(columns: seq<string>, table: string, whereClause: Option<WhereClause>)

  datatype InsertStatement = InsertStatement(table: string, columns: seq<string>, values: seq<string>)

  /** `assignments` is the Go field `Set`. */
  datatype UpdateStatement = UpdateStatement(table: string, assignments: map<string, string>, whereClause: Option<WhereClause>)

  /** The `ASTNode` interface, closed over the three statement kinds. */
  datatype AstNode = Select(select: SelectStatement) | Insert(insert: InsertStatement) | Update(update: UpdateStatement)
}
