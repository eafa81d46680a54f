# zhgo/db in Dafny

A model of the core of `zhgo/db`, a small Go package that builds SQL
statements and maps query results onto Go values. The package carries
several revisions of the same helpers side by side. Each source file's own
revision is a module of its own here:

- `Server` (server.go) holds four things:
  - the server record and its cache key;
  - the dialect translator that rewrites canonical SQL for MySQL, SQLite and
    PostgreSQL. Canonical SQL uses `"` identifier quotes and `$N`
    placeholders;
  - the row assembly of `Row` and `Rows`, over a cursor whose rows are
    already fetched;
  - the `Destination` the rows are written to.
- `QueryBuilder` (query.go, with `NewQuery` from db.go) models the
  chainable `Query` as a class.
  - Its `sql` record is updated in place.
  - Conditions append text and bound arguments.
  - Terminal operations render the statement handed to the executor: the
    `SELECT`, `INSERT`, `UPDATE` and `DELETE` text and its arguments.
- `Db` (db.go) and `Util` (util.go) hold each revision's scan-plan builder,
  value coercion and table-descriptor derivation. `Db` also holds the
  statement record and the table descriptor.
- `Reflection` stands in for what the code reads through Go's `reflect`.
  - A destination's shape is a `Kind`.
  - A struct field is a `Field`: its name, `json` tag, `pk` tag and
    embedded flag.
  - `PlanFor` is the scan-plan classification both revisions perform,
    parametrized by each revision's error messages.
  - It also holds the descriptor rule `ColumnName`, `PrimaryOf` and
    `ColumnsOf`.
- `Driver` holds the values a driver hands over, statements and cursors.
  `Strings` holds `strings.Join`, `%d` formatting and a character count.
- `Revisions` compares the two revisions.

Placeholders are not renumbered: every `$N`, repeats included, binds
`args[N-1]`; `$0` or an `N` beyond the arguments is the `OutOfRange` error.

## Model

| member | source | states |
|---|---|---|
| Server.NewServer | server.go:277-279 | the cache key is the type followed by the name; type and DSN are kept, `Follow` is empty |
| Server.Connect | server.go:282-284 | is `NewServer` |
| Server.CacheKeysDistinct | server.go:277-279 | two servers of one type share a cache key exactly when their names are equal |
| Server.CacheKeysCollide | server.go:277-279 | across types keys collide: type `t + p` with name `n` and type `t` with name `p + n` share a key but not a type |
| Server.Placeholders | server.go:263-264 | the numbers of the `\$(\d+)` matches, left to right; each match takes at least two characters |
| Server.ReplacePlaceholders | server.go:273 | `ReplaceAllString(str, "?")`: each placeholder shrinks to one character, so the output is at least one shorter per placeholder |
| Server.Rewrite | server.go:262-274 | on success the text holds no placeholder and one argument is bound per placeholder; the only failure is `OutOfRange`, raised when some placeholder names no argument |
| Server.ParseQuotes | server.go:257-259 | same length; every `"` becomes a backtick and every other character is kept; no `"` remains |
| Server.PlaceholderLength | server.go:263-264 | a match of `\$(\d+)` is `$` and a maximal non-empty run of digits |
| Server.ParseParameters | server.go:262-274 | the loop over the matches produces `Rewrite(str, args)`: `?` per placeholder, `args[N-1]` per `$N`, or the out-of-range error |
| Server.ParseSql | server.go:243-254 | MySQL gets quote conversion then the rewrite; SQLite the rewrite alone; PostgreSQL and any other type get SQL and args unchanged |
| Server.RewriteArgs | server.go:265-272 | succeeds iff every placeholder number is between 1 and the argument count; then one argument per placeholder, the i-th being `args[N_i - 1]`; otherwise the error is the out-of-range error |
| Server.AscendingPicksPrefix | server.go:265-272 | placeholders `$1..$k` in order bind the first k arguments in order |
| Server.RepeatedPlaceholder | server.go:265-272 | `$1 $1` becomes `? ?` and binds its argument twice |
| Server.ReplaceHead | server.go:273 | the rewrite starts with `?` at a placeholder and with the input's first character elsewhere |
| Server.ReplaceLeavesNoPlaceholder | server.go:273 | no `$` followed by a digit survives the rewrite |
| Server.PlaceholderTextHolds | server.go:263 | a placeholder holds only `$` and digits |
| Server.ReplaceCountsMarks | server.go:273 | the output has as many `?` as the input plus one per placeholder |
| Server.ReplaceKeepsQuotes | server.go:273 | the rewrite keeps the number of `"` |
| Server.SqliteKeepsQuotes | server.go:250-251 | for SQLite the double quotes survive translation |
| Server.NoPlaceholderUnchanged | server.go:273 | text without placeholders is unchanged and binds nothing |
| Server.ReplaceIdempotent | server.go:273 | rewriting twice is rewriting once |
| Server.QuotesKeepOthers | server.go:257-259 | quote conversion keeps the count of every character except the two quotes |
| Server.MysqlOutput | server.go:247-249 | the MySQL output has no `"` and no placeholder, its `?` are the input's plus one per bound argument, and one argument is bound per placeholder |
| Server.PlainText | server.go:262-274 | text without `$` passes through the rewrite unchanged and binds nothing |
| Server.OneDigit | server.go:262-274 | `$d` before a non-digit becomes one `?` and names d |
| Server.QuotesConcat | server.go:257-259 | quote conversion works piecewise over concatenation |
| Server.ExampleQuotes | server.go:257-259 | `"a" = $1` becomes `` `a` = $1 `` |
| Server.ExampleRewrite | server.go:262-274 | `` `a` = $1 `` becomes `` `a` = ? `` with its argument |
| Server.MysqlExample | server.go:247-249 | MySQL receives `` `a` = ? `` for `"a" = $1` |
| Server.Destination.constructor | server.go:56 | a destination of the given static type holding the given value, which must fit the type; the destination is `Valid` |
| Server.MapRow | server.go:86-91 | the last column's name is a key bound to its coerced value |
| Server.Collect | server.go:131-154 | at most one element per fetched step |
| Server.FirstError | server.go:131-154 | no scan error exactly when every step was collected |
| Server.RowOutcome | server.go:56-108 | a failed query is returned as is and leaves the destination; success needs a run query and an accepted destination type |
| Server.RowsOutcome | server.go:111-163 | a failed query is returned as is and leaves the slice; success needs a run query and an accepted slice type |
| Server.RowKeepsFit | server.go:82-99 | what `Row` leaves in the destination fits the pointee type |
| Server.Scan | server.go:77-81 | `rows.Scan` succeeds iff the step was fetched and no scan target is nil; a driver error is passed on |
| Server.ListRow | server.go:93-98 | the slice row has one coerced value per column, in column order |
| Server.AssembleMap | server.go:86-91 | the index loop builds the map row `MapRow` |
| Server.AssembleList | server.go:93-98 | the index loop builds the slice row `ListRow` |
| Server.Assemble | server.go:82-99 | a struct row keeps the scanned values, a map row or a slice row is assembled |
| Server.Row | server.go:56-108 | keeps `Valid`; the new destination and the error are `RowOutcome`: query or plan errors leave the destination alone, an empty cursor returns the iteration error, otherwise only the first row is scanned and stored |
| Server.Rows | server.go:111-163 | the destination slice becomes the old elements followed by `Collect` of the cursor, and the error is the first scan error, else the iteration error |
| Server.MapRowKeys | server.go:86-91 | the map row's keys are exactly the column names |
| Server.MapRowLastWins | server.go:86-91 | a column maps to the coerced value of its last occurrence |
| Server.CollectAll | server.go:131-154 | no first error iff every step scans; then one element per step, in cursor order |
| Server.CollectStops | server.go:132-135 | the first failing step ends iteration: the earlier elements stay and its error is returned |
| Server.RowFailureLeavesDestination | server.go:56-108 | an error from `Row` leaves the destination unchanged; a change needs a fetched row |
| Server.RowsAppends | server.go:111-163 | `Rows` only appends; with no error it appends one element per step |
| Server.RowIsFirstOfRows | server.go:76-99 | `Row` into `*T` uses the plan `Rows` into `*[]T` uses, and stores the first element `Rows` appends, or fails as `Rows` fails on it |
| Server.EmbeddedFieldRejects | server.go:77-81 | a struct with an embedded field gets a nil scan target and every row fails to scan |
| Reflection.StructSlots | util.go:47-60 | one slot per field, nil exactly at an embedded field, else that field's address |
| Reflection.CellSlots | util.go:63-69 | one slot per column, none nil, slot i addressing cell i |
| Reflection.PlanFor | util.go:22-73 | a successful plan has one slot per column; every failure is one of the revision's four messages |
| Reflection.ColumnName | db.go:180-185 | the `json` tag when set, else the Go name |
| Reflection.PrimaryOf | db.go:170-195 | with no primary-tagged field the key is empty |
| Reflection.ColumnsOf | db.go:170-195 | at most one column per field; a last field that is not the key gives the last column |
| Reflection.PlanForShape | util.go:22-73 | a plan exists iff the destination is a pointer (to a slice in rows mode) whose row type is a map, a slice, or a struct with one field per column; it has one slot per column |
| Reflection.PlanForErrors | util.go:22-73 | non-pointer, non-slice in rows mode, count mismatch and unsupported kind each give their error, checked in that order |
| Reflection.PlanForSlots | util.go:46-69 | struct slots are nil exactly at embedded fields; map and slice slots address cell i |
| Reflection.PrimaryCount | util.go:107-129 | at most one primary per field |
| Reflection.ColumnsCount | util.go:107-129 | the column count is the field count minus the primary-tagged count |
| Reflection.ColumnAt | util.go:112-126 | each non-primary field's column sits at its place among the non-primary fields, in declaration order |
| Reflection.PrimaryLastWins | util.go:119-121 | of several primary fields the last wins |
| Reflection.NoPrimary | util.go:107-129 | with no primary field the key is empty and every field is a column |
| Db.ScanVariable | db.go:83-139 | the array loops produce `PlanFor` with db.go's messages |
| Db.TypeAssertion | db.go:142-167 | the result is a bool, int64, float64 or string; exactly those pass through; `[]byte` becomes the string of its bytes and anything else the empty string |
| Db.TypeAssertionIdempotent | db.go:142-167 | coercing twice is coercing once |
| Db.TableFields | db.go:170-195 | the loop yields `PrimaryOf` and `ColumnsOf` of the descriptors |
| Db.TableFieldsExamples | db_test.go:64-86 | `RegionId` with `ParentRegionId`, `Title`; `region_id` with `parent_region_id`, `title` |
| Db.ScanVariableExample | db_test.go:24-41 | a pointer to a slice of the three-field struct with three columns gives a struct plan addressing every field |
| Util.ScanVariables | util.go:22-73 | the array loops produce `PlanFor` with util.go's messages |
| Util.TypeAssertion | util.go:76-96 | every value except an unexpected type passes through; an unexpected type becomes the empty string |
| Util.TypeAssertionIdempotent | util.go:76-96 | coercing twice is coercing once |
| Util.TableAlias | util.go:99-104 | the first alias when there is one, else empty |
| Util.TableFields | util.go:107-129 | the loop yields `PrimaryOf` and `ColumnsOf`; being a function of the descriptors, it is deterministic |
| Revisions.PlansAgree | db.go:83-139 | both revisions accept the same destinations with the same plan, and their error texts differ |
| Revisions.CoercionsAgree | db.go:142-167 | the two coercions agree except on `[]byte`, nil and `[]rune` |
| Revisions.CoercionsCompose | util.go:76-96 | db.go's coercion after util.go's is db.go's |
| QueryBuilder.ConditionText | query.go:64-79 | empty exactly for an operator of neither kind; otherwise it opens with the connective between spaces |
| QueryBuilder.ConditionArgs | query.go:64-79 | a prefix of the values: one for a comparison, all for `IN`/`NOT IN`, none otherwise |
| QueryBuilder.Condition | query.go:64-79 | the where text and the arguments only grow, by at most the given values |
| QueryBuilder.ApplyCalls | query.go:45-79 | no calls leave the record as it is; calls never drop arguments |
| QueryBuilder.ConditionMarks | query.go:64-79 | a condition's text holds as many `?` as it binds arguments |
| QueryBuilder.ConditionEffect | query.go:64-79 | an unknown operator changes nothing; a comparison binds `val[0]`; `IN`/`NOT IN` bind all values in order; nothing but `Where` and `Args` changes |
| QueryBuilder.ConditionAligned | query.go:64-79 | a condition on a field without `?` keeps `?` count and arguments aligned |
| QueryBuilder.Logic | query.go:45-57 | `Or` writes `OR`; `Where` and `And` write `AND` |
| QueryBuilder.AlignedAfterCalls | query.go:45-79 | any chain of `Where`/`And`/`Or` on fields without `?` keeps the record aligned |
| QueryBuilder.CallsAppend | query.go:45-79 | a chain of conditions only appends to `Where` and `Args` |
| QueryBuilder.DefaultSelect | query.go:216-220 | starts with the key as ``a.`key` `` and ends in a backtick |
| QueryBuilder.Render | query.go:213-228 | starts with `SELECT `; the where text follows `WHERE 1 ` directly |
| QueryBuilder.RenderHead | query.go:222 | from `SELECT ` to ` WHERE 1 ` |
| QueryBuilder.RenderTail | query.go:222 | ends in the locking clause |
| QueryBuilder.DefaultSelectLists | query.go:216-220 | the default select list is the key then the fields, each as ``a.`f` ``, joined by `, `; with no fields it ends in an empty identifier |
| QueryBuilder.SelectPlain | query.go:216-220 | the select list holds no `?` when the names hold none |
| QueryBuilder.LimitClauses | query.go:222 | a fresh query renders `LIMIT 0, 10`, one reset by `Row` renders `LIMIT 0, 1` |
| QueryBuilder.TailPlain | query.go:222 | the clauses after `WHERE` hold no `?` |
| QueryBuilder.RenderMarks | query.go:213-228 | the rendered `SELECT` holds one `?` per bound argument |
| QueryBuilder.InsertValues | query.go:143-150 | at most one value per field |
| QueryBuilder.InsertArgs | query.go:137-150 | the first struct's values come first; at most one value per field over all structs |
| QueryBuilder.InsertStatement | query.go:126-156 | fails exactly for no data, with `empty insert data`; otherwise `INSERT INTO` with the values of all structs |
| QueryBuilder.UpdateStatement | query.go:170-182 | the SET values in entry order and then the where-args; `UPDATE` text ending in the where text |
| QueryBuilder.DeleteStatement | query.go:197-200 | binds exactly the where-args; `DELETE FROM` text ending in the where text |
| QueryBuilder.InsertGroups | query.go:137-153 | one `(?, ...)` group per struct |
| QueryBuilder.UpdateBody | query.go:175-178 | one `key = ?` per entry |
| QueryBuilder.UpdateValues | query.go:175-178 | one value per entry, in the same order |
| QueryBuilder.GroupMarks | query.go:143-152 | a struct's group holds one `?` per bound value |
| QueryBuilder.GroupsMarks | query.go:137-153 | all groups together hold one `?` per bound value |
| QueryBuilder.CountAllSnoc | query.go:137-153 | counting over groups can take the last group off |
| QueryBuilder.InsertMarks | query.go:126-167 | the `INSERT` holds one `?` per bound argument |
| QueryBuilder.TaggedInsertFits | query.go:145 | for a fully tagged struct `Insert` binds one value per column `TableFields` derives |
| QueryBuilder.UntaggedInsertBindsNothing | query.go:145 | the untagged test struct has two columns but `Insert` binds no value for it |
| QueryBuilder.FieldsOf | query.go:143-145 | a struct's fields in order |
| QueryBuilder.UpdateMarks | query.go:170-194 | the `UPDATE` holds one `?` per bound argument: SET values then where-args |
| QueryBuilder.BodyMarks | query.go:175-178 | every assignment holds one `?` |
| QueryBuilder.DeleteMarks | query.go:197-210 | the `DELETE` holds one `?` per bound argument, exactly the where-args |
| QueryBuilder.BindItem | query.go:143-150 | one `?` and one value per insertable field |
| QueryBuilder.Query.constructor | db.go:74-76 | no clauses and no arguments, offset 0, 10 rows, aligned |
| QueryBuilder.Query.Fields | query.go:29-36 | no names selects `*`; names are joined by `, ` |
| QueryBuilder.Query.WhereNode | query.go:64-79 | the record becomes `Condition` of the old one |
| QueryBuilder.Query.Where | query.go:45-47 | a condition with `AND` |
| QueryBuilder.Query.And | query.go:50-52 | a condition with `AND` |
| QueryBuilder.Query.Or | query.go:55-57 | a condition with `OR` |
| QueryBuilder.Query.Row | query.go:112-118 | offset 0 and one row, then the rendered statement with the arguments |
| QueryBuilder.Query.Rows | query.go:121-123 | the rendered statement with the arguments |
| QueryBuilder.Query.Insert | query.go:126-167 | no data is the `empty insert data` error; otherwise the loops build `InsertStatement` |
| QueryBuilder.Query.Update | query.go:170-194 | the loop builds `UpdateStatement` |
| QueryBuilder.Query.Delete | query.go:197-210 | the statement is `DeleteStatement` |
| Strings.Join | query.go:75 | `strings.Join`: empty for no parts, and starts with the first part |
| Strings.DecimalString | query.go:222 | `%d`: non-empty and all digits, no leading zero, one digit exactly below ten |
| Strings.DigitsValue | server.go:266 | `ParseInt(s, 10, 0)` on digits: zero exactly for a run of zeros, the last digit is the value mod 10 |
| Strings.CountConcat | query.go:67 | counting distributes over concatenation |
| Strings.Absent | query.go:67 | a text holds no `c` iff `c` does not occur in it |
| Strings.CountJoin | query.go:75 | joining adds only the separator's characters |
| Strings.MarksJoined | query.go:70-75 | `n` question marks joined by a separator without `?` hold exactly `n` |
| Strings.DecimalRoundTrip | query.go:222 | parsing the `%d` rendering gives the number back |
| Strings.JoinWrap | query.go:219 | a separator that closes one part and opens the next wraps every part |

## Left out

- Connections, statement preparation, execution and the connection caches are I/O over `database/sql` and are not modelled. This covers `Exec`, `rows`, `prepare` and `connect` in server.go, and all of execute.go.
  - `Server.Row` and `Server.Rows` take the outcome of running the query as a parameter: an error, or a cursor of columns, fetched steps and a final iteration error.
  - The query builder's terminal operations return the statement they would hand to the executor. The count `LastInsertId`/`RowsAffected` report is not modelled.
- `Row` in server.go calls `rows.Err()` once after one successful `Next`. That call is modelled as reporting nothing, since iteration has not ended.
- `Server.ParseParameters`: Go indexes `args[vi-1]` unchecked, so `$0`, a number past the arguments or one `ParseInt` cannot parse in 64 bits panics. The model returns the `placeholder index out of range` error instead.
- `Server.Row`: with a pointer to a slice of structs, maps or slices, `val.Set` of the `[]interface{}` row panics in Go. The model requires the pointee slice to be of another element type (`[]interface{}`).
- `QueryBuilder.Insert`: reading an unexported `json`-tagged field through reflection panics in Go. Field descriptors carry no export flag, so the model binds such a field's value.
- `QueryBuilder.Query.WhereNode`: a comparison with no value indexes `val[0]` and panics in Go. The model requires a value for comparisons instead.
- `database/sql`'s conversion of driver values into struct fields is not modelled: a struct row holds the scanned driver values as they are. The nil-target error's text is reduced to `destination not a pointer`, without the column index Go adds.
- Reflection is abstracted. `Map` stands for `map[string]interface{}`, and a map or slice destination is assumed to accept what `reflect.Append` puts in it. A destination of another element type would panic in Go.
- `Server.Rows`: when the destination holds no list of rows, the contract says only that the destination is unchanged and an error returned. With `Valid`, that is a non-pointer, a non-slice, or a `[]interface{}` pointee, none of which `Rows` accepts.
- Go's map iteration order in `Update` is not modelled. The update data is the sequence in which iteration happens to list it.
- `float64` values are opaque bit patterns. Go strings are byte sequences (`Text`), while SQL text is `string`.
- `Join`, `Order`, `Group`, `Having`, `Limit`, `Lock` and `Scaler` in query.go change nothing and return the query (or nil). They have no model beyond that.
- server.go's `NewQuery`, `InsertInto`, `Update`, `DeleteFrom` and `Select` call a query builder of another revision, whose functions query.go does not have. They are not part of this model.
- Logging is omitted throughout. db.go logs the unexpected type in `typeAssertion`, and `parseParameters` logs a parse error.
- init.go, model.go, table.go, condition.go and define.go are not part of this model. They hold configuration loading, thin wrappers, stubs and aliases.
