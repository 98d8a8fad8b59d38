# yb-orm SQL expression tree, modelled in Dafny

This project models the data-structure core of yb-orm's SQL expression tree
(`lib/orm/Filters.h`). The ORM builds SQL fragments as a tree. A handle,
`Expression`, holds either raw SQL text or a shared pointer to a backend node.
A handle with neither is the empty sentinel, which stands for "clause not set".
The backend nodes form a closed family: Column, Const, BinaryOp, Join,
ExpressionList, Select and FilterByPK. They are immutable once built, with two
exceptions: the expression list grows in place by `append`, and the select
node has setters for its optional clauses.

Files:

- `filters.dfy` (module `Filters`): the handle and the node family as
  datatypes. The source's accessors (`alias`, `const_value`, `op`, `expr1`,
  `expr2`, `cond`, `key`, the select clause getters) are the datatype's
  fields. It also holds the three handle constructors, `is_empty`, `get_sql`
  and the Join node constructor. `Value` and `Key` come from other headers
  and are opaque types. The rendering function `generate_sql` is passed in as
  a parameter and never specified.
- `expression_list.dfy` (module `ExpressionLists`): `ExpressionListBackend`, a
  class over a `seq` of handles with `append`, `size` and a bounds-checked
  `item`. `ExpressionList` is the handle class. It has its constructors, the
  loop that fills it from a list of strings, and the chaining `operator<<`.
  `AppendAll` is the value-level definition of what a fill leaves in the
  list. The loop is proved against it.
- `select.dfy` (module `Selects`): `SelectExprBackend`, a class with the six
  clause fields, its constructor and the five setters.

Several members are only declared in `lib/orm/Filters.h`; their bodies are in
a source file that is not part of this model. The model assumes the evident
behaviour for each of them:

- `Expression()` (line 31) builds the handle with no text and no backend. Its
  members at lines 28-29, a `SharedPtr` and a `String`, default to a null
  pointer and empty text. The `SelectExprBackend` constructor at lines 185-187
  leaves five clauses default-constructed, and those stand for a clause that is
  not set.
- `Expression(const String &)` (line 32) keeps the given text and has no
  backend.
- `Expression(SharedPtr<ExpressionBackend>)` (line 33) keeps the given pointer,
  possibly null, and has no text.
- `ExpressionList()` (line 155) builds a handle on a fresh
  `ExpressionListBackend` with no items, as the `Strings` constructor at lines
  160-164 visibly does before filling.
- The `ExpressionList` constructors from one, two or three expressions
  (lines 156-159) build a fresh backend and append their arguments in order.
- `ExpressionList`'s `append`, `size` and `item` (lines 170, 175, 176) forward
  to the backend's members of the same name.

## Model

| member | source | states |
|---|---|---|
| `Filters.Expression.IsEmpty` | lib/orm/Filters.h:36 | a handle is empty exactly when its text is empty and it has no backend, that is, exactly when it is the default handle |
| `Filters.Empty` | lib/orm/Filters.h:31-36 | the default handle is empty, and it is the only handle that is empty |
| `Filters.FromSql` | lib/orm/Filters.h:32-36 | a text handle keeps its text and has no backend (assumed, see above); it is empty exactly when the text is empty |
| `Filters.FromBackend` | lib/orm/Filters.h:33-37 | a node handle keeps its backend and has no text (assumed, see above); it is empty exactly when the pointer is null |
| `Filters.GetSql` | lib/orm/Filters.h:34-35 | `get_sql()` is `generate_sql` called with a null parameter sink |
| `Filters.MakeJoin` | lib/orm/Filters.h:108-119 | a Join node's `expr1()`, `expr2()` and `cond()` return the three constructor arguments |
| `ExpressionLists.AppendAll` | lib/orm/Filters.h:147-153 | filling a list from strings adds one item per string, the i-th item is the raw-SQL handle of the i-th string, and earlier items are kept |
| `ExpressionLists.AppendAllConcat` | lib/orm/Filters.h:148-153 | filling from `s + t` equals filling from `s` and then from `t`, so a fill is a run of appends in iteration order |
| `ExpressionLists.AppendAllSnoc` | lib/orm/Filters.h:150-152 | one more string in the container is one more append at the end of the list |
| `ExpressionLists.ExpressionListBackend.constructor` | lib/orm/Filters.h:135 | a new backend holds no items |
| `ExpressionLists.ExpressionListBackend.Append` | lib/orm/Filters.h:136 | `append(e)` raises `size()` by one, puts `e` at index old `size()`, and leaves every earlier `item(k)` unchanged |
| `ExpressionLists.ExpressionListBackend.Size` | lib/orm/Filters.h:138 | `size()` is the number of items appended so far |
| `ExpressionLists.ExpressionListBackend.Item` | lib/orm/Filters.h:139-142 | `item(n)` succeeds exactly when `0 <= n < size()` and then gives the n-th item; any other `n` fails the assertion |
| `ExpressionLists.ExpressionListBackend.AsNode` | lib/orm/Filters.h:131-133 | the backend is the ExpressionList node holding its items in order |
| `ExpressionLists.ExpressionList.constructor` | lib/orm/Filters.h:155 | a new list has a fresh backend with no items (assumed, see above) |
| `ExpressionLists.ExpressionList.Of1` | lib/orm/Filters.h:156 | a list built from one expression holds exactly it |
| `ExpressionLists.ExpressionList.Of2` | lib/orm/Filters.h:157 | a list built from two expressions holds them in argument order |
| `ExpressionLists.ExpressionList.Of3` | lib/orm/Filters.h:158-159 | a list built from three expressions holds them in argument order |
| `ExpressionLists.ExpressionList.FromStrings` | lib/orm/Filters.h:160-164 | a list built from a `Strings` container has its length as size, and item i is the raw-SQL handle of the i-th string |
| `ExpressionLists.ExpressionList.FillFromContainer` | lib/orm/Filters.h:147-153 | the fill loop leaves exactly `AppendAll` of the old items and the container in the list |
| `ExpressionLists.ExpressionList.Append` | lib/orm/Filters.h:170 | `append(e)` adds `e` at the end of the backend's items |
| `ExpressionLists.ExpressionList.Push` | lib/orm/Filters.h:171-174 | `list << e` appends `e` and returns the same list, so `list << a << b` appends `a` and then `b` |
| `ExpressionLists.ExpressionList.Size` | lib/orm/Filters.h:175 | `size()` is the number of items in the backend |
| `ExpressionLists.ExpressionList.Item` | lib/orm/Filters.h:176-177 | `item(n)` and `operator[]` succeed exactly for `0 <= n < size()` and then give the n-th item |
| `ExpressionLists.ExpressionList.AsExpression` | lib/orm/Filters.h:145 | the list is a handle on its backend node with no text, so it is never empty |
| `Selects.SelectExprBackend.AsNode` | lib/orm/Filters.h:180-199 | the six clause fields are the Select node's clauses, field for field, so the getters at lines 194-199 are the node's projections |
| `Selects.SelectExprBackend.constructor` | lib/orm/Filters.h:185-187 | a new select node has the given select list and the other five clauses empty |
| `Selects.SelectExprBackend.From` | lib/orm/Filters.h:188 | `from_` replaces only the FROM clause; the other five clauses are unchanged, so the last write wins |
| `Selects.SelectExprBackend.Where` | lib/orm/Filters.h:189 | `where_` replaces only the WHERE clause; the other five clauses are unchanged |
| `Selects.SelectExprBackend.GroupBy` | lib/orm/Filters.h:190 | `group_by_` replaces only the GROUP BY clause; the other five clauses are unchanged |
| `Selects.SelectExprBackend.Having` | lib/orm/Filters.h:191 | `having_` replaces only the HAVING clause; the other five clauses are unchanged |
| `Selects.SelectExprBackend.OrderBy` | lib/orm/Filters.h:192 | `order_by_` replaces only the ORDER BY clause; the other five clauses are unchanged |

## Left out

- `generate_sql`, for every node and for `Expression` (lib/orm/Filters.h:19, 34, 55, 73, 92, 115, 137, 193, 238): the rendering bodies are not part of this model. They appear only as the `Renderer` parameter of `GetSql`. The values a renderer appends to its parameter sink are not modelled.
- The SQL text helpers `is_number_or_object_name`, `is_string_constant`, `is_in_parentheses`, `sql_parentheses_as_needed`, `sql_prefix` and `sql_alias` (lib/orm/Filters.h:40-45): they are declared only.
- The combinators `filter_eq` to `filter_ge`, `&&`, `||` and the two `==` (lib/orm/Filters.h:219-229), `FilterBackendByPK::build_expr`, the FilterByPK and `KeyFilter` constructors (lib/orm/Filters.h:231-247) and `find_all_tables` (lib/orm/Filters.h:263): they are declared only, so their behaviour cannot be stated from code. FilterByPK is present as a node variant whose `key` field is the `key()` accessor.
- The constructors of the Column, Const and BinaryOp backends, and the handle classes `ColumnExpr`, `ConstExpr`, `BinaryOpExpr`, `JoinExpr`, `SelectExpr` and `KeyFilter`: their bodies are not part of this model. Their accessors are the node fields, and the chainable `SelectExpr` setters are represented by the backend setters they wrap.
- The `ExpressionList(const StringSet &)` constructor (lib/orm/Filters.h:165-169): its order is the set's iteration order. Only the ordered `Strings` path is modelled.
- Shared ownership: a handle copied from an `ExpressionList` before an `append` shares the backend and sees the new item. In the model, `AsExpression` is a snapshot of the items at the time it is read. Reference counting and thread safety are not modelled.
- `ExpressionLists.ExpressionListBackend.Size`: does not model the narrowing of the vector's size to `int` for lists of more than 2^31 - 1 items.
- The error classes `ORMError` and `ObjectNotFoundByKey` (lib/orm/Filters.h:251-261) and the unused `ParamNums` typedef (lib/orm/Filters.h:14).
- `Value` and `Key` (orm/Value.h) are not part of this model; they are opaque types here.
