/**
 * The SQL expression tree of the ORM: the Expression handle and the closed
 * family of backend nodes behind it (lib/orm/Filters.h).
 *
 * A handle holds either raw SQL text or a backend node. Nodes are immutable
 * values here; the two node kinds the source builds up in place
 * (ExpressionList and Select) have builder classes in their own modules and
 * enter the tree as the value they hold when the handle is taken.
 */
module Filters {

  datatype Option<+T> = None | Some(value: T)

  /** The failure YB_ASSERT raises when its condition does not hold. */
  datatype Error = AssertionFailed

  datatype Result<+T> = Ok(value: T) | Err(error: Error)

  /** A scalar value (orm/Value.h); its contents are not part of this model. */
  type Value(!new)

  /** A primary key: table name and ordered column/value pairs (orm/Value.h). */
  type Key(!new)

  /**
   * The backend nodes. Each field is the accessor of the same name in the
   * source: `alias`, `constValue`, `op`, `expr1`, `expr2`, `cond`, `items`,
   * the six clauses of a select and `key`.
   */
  datatype Node =
    | Column(expr: Expression, tblName: string, colName: string, alias: string)
    | Const(constValue: Value)
    | BinaryOp(expr1: Expression, op: string, expr2: Expression)
    | Join(expr1: Expression, expr2: Expression, cond: Expression)
    | ExprList(items: seq<Expression>)
    | Select(selectExpr: Expression, fromExpr: Expression, whereExpr: Expression,
             groupByExpr: Expression, havingExpr: Expression, orderByExpr: Expression)
    | FilterByPK(expr: Expression, key: Key)

  /**
   * The handle: a (possibly absent) backend node and a (possibly empty) SQL
   * text. The empty handle, with neither, marks a clause left unset.
   */
  datatype Expression = Expression(backend: Option<Node>, sql: string)
  {
    /** is_empty(): no SQL text and no backend, i.e. the handle is the default one. */
    predicate IsEmpty()
      ensures IsEmpty() <==> this == Expression(None, "")
    {
      |sql| == 0 && backend.None?
    }
  }

  /** Expression(): the empty sentinel, the only empty handle there is. */
  function Empty(): (e: Expression)
    ensures e.IsEmpty()
    ensures forall x: Expression :: x.IsEmpty() ==> x == e
  {
    Expression(None, "")
  }

  /** Expression(sql): raw SQL text with no backend; empty only for empty text. */
  function FromSql(sql: string): (e: Expression)
    ensures e.sql == sql && e.backend.None?
    ensures e.IsEmpty() <==> sql == ""
  {
    Expression(None, sql)
  }

  /**
   * Expression(backend): a node handle with no text; empty only when the
   * shared pointer passed in is null.
   */
  function FromBackend(backend: Option<Node>): (e: Expression)
    ensures e.backend == backend && e.sql == ""
    ensures e.IsEmpty() <==> backend.None?
  {
    Expression(backend, "")
  }

  /**
   * The parameter sink of generate_sql: a null pointer, or a list that
   * collects the bound values.
   */
  datatype Params = NoParams | Sink(values: seq<Value>)

  /** The rendering function generate_sql, whose bodies are not part of this model. */
  type Renderer = (Expression, Params) -> string

  /** get_sql(): rendering with a null parameter sink. */
  function GetSql(e: Expression, generateSql: Renderer): (sql: string)
    ensures sql == generateSql(e, NoParams)
  {
    generateSql(e, NoParams)
  }

  /** JoinExprBackend(expr1, expr2, cond): the accessors give back the arguments. */
  function MakeJoin(expr1: Expression, expr2: Expression, cond: Expression): (n: Node)
    ensures n.Join?
    ensures n.expr1 == expr1 && n.expr2 == expr2 && n.cond == cond
  {
    Join(expr1, expr2, cond)
  }
}
