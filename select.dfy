/**
 * The SELECT statement node while it is being built (lib/orm/Filters.h,
 * SelectExprBackend): the select list is fixed at construction and each of
 * the five optional clauses has a setter that overwrites it.
 */
module Selects {
  import opened Filters

  class SelectExprBackend {
    var selectExpr: Expression
    var fromExpr: Expression
    var whereExpr: Expression
    var groupByExpr: Expression
    var havingExpr: Expression
    var orderByExpr: Expression

    /** The six clauses as the node value they make in the tree. */
    function AsNode(): (node: Node)
      reads this
      ensures node.Select?
      ensures node.selectExpr == selectExpr && node.fromExpr == fromExpr
      ensures node.whereExpr == whereExpr && node.groupByExpr == groupByExpr
      ensures node.havingExpr == havingExpr && node.orderByExpr == orderByExpr
    {
      Select(selectExpr, fromExpr, whereExpr, groupByExpr, havingExpr, orderByExpr)
    }

    /** SelectExprBackend(select_expr): the select list set, every other clause empty. */
    constructor (selectExpr: Expression)
      ensures AsNode() == Select(selectExpr, Empty(), Empty(), Empty(), Empty(), Empty())
    {
      this.selectExpr := selectExpr;
      fromExpr, whereExpr, groupByExpr := Empty(), Empty(), Empty();
      havingExpr, orderByExpr := Empty(), Empty();
    }

    /** from_: replaces the FROM clause; the other five are kept. */
    method From(e: Expression)
      modifies this
      ensures old(AsNode()).Select? && AsNode() == old(AsNode()).(fromExpr := e)
    {
      fromExpr := e;
    }

    /** where_: replaces the WHERE clause; the other five are kept. */
    method Where(e: Expression)
      modifies this
      ensures old(AsNode()).Select? && AsNode() == old(AsNode()).(whereExpr := e)
    {
      whereExpr := e;
    }

    /** group_by_: replaces the GROUP BY clause; the other five are kept. */
    method GroupBy(e: Expression)
      modifies this
      ensures old(AsNode()).Select? && AsNode() == old(AsNode()).(groupByExpr := e)
    {
      groupByExpr := e;
    }

    /** having_: replaces the HAVING clause; the other five are kept. */
    method Having(e: Expression)
      modifies this
      ensures old(AsNode()).Select? && AsNode() == old(AsNode()).(havingExpr := e)
    {
      havingExpr := e;
    }

    /** order_by_: replaces the ORDER BY clause; the other five are kept. */
    method OrderBy(e: Expression)
      modifies this
      ensures old(AsNode()).Select? && AsNode() == old(AsNode()).(orderByExpr := e)
    {
      orderByExpr := e;
    }
  }
}
