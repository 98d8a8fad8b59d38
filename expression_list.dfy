/**
 * The append-only list of expressions (lib/orm/Filters.h, ExpressionListBackend
 * and ExpressionList): a vector of handles that grows in place and is read by
 * size and bounds-checked index.
 */
module ExpressionLists {
  import opened Filters

  /**
   * What filling a list from an ordered container of strings leaves in it:
   * each string, in iteration order, appended as a raw SQL handle.
   */
  function AppendAll(items: seq<Expression>, cont: seq<string>): (r: seq<Expression>)
    ensures |r| == |items| + |cont|
    ensures forall k :: 0 <= k < |items| ==> r[k] == items[k]
    ensures forall i :: 0 <= i < |cont| ==> r[|items| + i] == FromSql(cont[i])
    decreases cont
  {
    if cont == [] then items
    else
      AppendAll(items + [FromSql(cont[0])], cont[1..])
  }

  /** Filling from two containers one after the other is filling from their concatenation. */
  lemma {:induction false} AppendAllConcat(items: seq<Expression>, s: seq<string>, t: seq<string>)
    ensures AppendAll(items, s + t) == AppendAll(AppendAll(items, s), t)
    decreases s
  {
    if s == [] {
      assert s + t == t;
    } else {
      assert (s + t)[0] == s[0];
      assert (s + t)[1..] == s[1..] + t;
      AppendAllConcat(items + [FromSql(s[0])], s[1..], t);
    }
  }

  /** One more string is one more append at the end. */
  lemma AppendAllSnoc(items: seq<Expression>, s: seq<string>, x: string)
    ensures AppendAll(items, s + [x]) == AppendAll(items, s) + [FromSql(x)]
  {
    AppendAllConcat(items, s, [x]);
    var b := AppendAll(items, s);
    assert AppendAll(b, [x]) == AppendAll(b + [FromSql(x)], []);
  }

  /** ExpressionListBackend: the vector of items behind an ExpressionList handle. */
  class ExpressionListBackend {
    var items: seq<Expression>

    constructor ()
      ensures items == []
    {
      items := [];
    }

    /** append: push at the end; size grows by one, earlier items stay put. */
    method Append(expr: Expression)
      modifies this
      ensures items == old(items) + [expr]
      ensures Size() == old(Size()) + 1
      ensures Item(old(Size())) == Ok(expr)
      ensures forall k :: 0 <= k < old(Size()) ==> Item(k) == old(Item(k))
    {
      items := items + [expr];
    }

    /** size: the number of items appended so far. */
    function Size(): (n: int)
      reads this
      ensures n == |items|
    {
      |items|
    }

    /**
     * item(n): the n-th appended item; any index outside 0 .. size()-1 fails
     * the assertion.
     */
    function Item(n: int): (r: Result<Expression>)
      reads this
      ensures r.Ok? <==> 0 <= n < Size()
      ensures r.Ok? ==> r.value == items[n]
    {
      if 0 <= n < |items| then Ok(items[n]) else Err(AssertionFailed)
    }

    /** The node value this backend stands for in the tree. */
    function AsNode(): (node: Node)
      reads this
      ensures node.ExprList? && node.items == items
    {
      ExprList(items)
    }
  }

  /**
   * ExpressionList: a handle whose backend is an ExpressionListBackend. Its
   * append, size and item forward to the backend.
   */
  class ExpressionList {
    const backend: ExpressionListBackend

    /** ExpressionList(): no items. */
    constructor ()
      ensures fresh(backend) && backend.items == []
    {
      backend := new ExpressionListBackend();
    }

    /** ExpressionList(expr): one item. */
    constructor Of1(expr: Expression)
      ensures fresh(backend) && backend.items == [expr]
    {
      backend := new ExpressionListBackend();
      new;
      backend.Append(expr);
    }

    /** ExpressionList(expr1, expr2): two items in argument order. */
    constructor Of2(expr1: Expression, expr2: Expression)
      ensures fresh(backend) && backend.items == [expr1, expr2]
    {
      backend := new ExpressionListBackend();
      new;
      backend.Append(expr1);
      backend.Append(expr2);
    }

    /** ExpressionList(expr1, expr2, expr3): three items in argument order. */
    constructor Of3(expr1: Expression, expr2: Expression, expr3: Expression)
      ensures fresh(backend) && backend.items == [expr1, expr2, expr3]
    {
      backend := new ExpressionListBackend();
      new;
      backend.Append(expr1);
      backend.Append(expr2);
      backend.Append(expr3);
    }

    /** ExpressionList(const Strings &): a fresh backend filled from the container. */
    constructor FromStrings(cont: seq<string>)
      ensures fresh(backend)
      ensures backend.items == AppendAll([], cont)
      ensures backend.Size() == |cont|
      ensures forall i :: 0 <= i < |cont| ==> backend.Item(i) == Ok(FromSql(cont[i]))
    {
      backend := new ExpressionListBackend();
      new;
      FillFromContainer(cont);
    }

    /** fill_from_container: append each string, in iteration order, as a raw SQL handle. */
    method FillFromContainer(cont: seq<string>)
      modifies backend
      ensures backend.items == AppendAll(old(backend.items), cont)
    {
      var i := 0;
      while i < |cont|
        invariant 0 <= i <= |cont|
        invariant backend.items == AppendAll(old(backend.items), cont[..i])
      {
        AppendAllSnoc(old(backend.items), cont[..i], cont[i]);
        assert cont[..i + 1] == cont[..i] + [cont[i]];
        Append(FromSql(cont[i]));
        i := i + 1;
      }
      assert cont[..i] == cont;
    }

    /** append: forwards to the backend. */
    method Append(expr: Expression)
      modifies backend
      ensures backend.items == old(backend.items) + [expr]
    {
      backend.Append(expr);
    }

    /** operator<<: append and hand back this same list, so calls chain. */
    method Push(expr: Expression) returns (self: ExpressionList)
      modifies backend
      ensures self == this
      ensures backend.items == old(backend.items) + [expr]
    {
      Append(expr);
      self := this;
    }

    /** size: forwards to the backend. */
    function Size(): (n: int)
      reads backend
      ensures n == |backend.items|
    {
      backend.Size()
    }

    /** item(n) and operator[](n): forward to the backend's bounds-checked item. */
    function Item(n: int): (r: Result<Expression>)
      reads backend
      ensures r.Ok? <==> 0 <= n < |backend.items|
      ensures r.Ok? ==> r.value == backend.items[n]
    {
      backend.Item(n)
    }

    /** The handle itself: the backend node and no SQL text, never empty. */
    function AsExpression(): (e: Expression)
      reads backend
      ensures e.backend == Some(backend.AsNode()) && e.sql == "" && !e.IsEmpty()
    {
      FromBackend(Some(backend.AsNode()))
    }
  }
}
