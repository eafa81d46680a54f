/** query.go: the chainable query builder. A `Query` accumulates clause
    fragments and bound arguments in its `Sql` record; its terminal
    operations render the statement they hand to the executor. */
module QueryBuilder {
  import opened Wrappers
  import opened Strings
  import opened Driver
  import opened Reflection
  import opened Db

  /** The executor a query is bound to: a connection key and the database
      configuration. */
  datatype Execute = Execute(dbKey: string, config: Config)

  // ---- Conditions -------------------------------------------------------

  /** The operators rendered as `field m ?` with one argument. */
  predicate IsComparison(m: string) {
    m in {"=", "<", "<=", ">", ">=", "<>", "LIKE"}
  }

  /** The operators rendered as `field m (?,?,...)` with one argument per
      value. */
  predicate IsMembership(m: string) {
    m == "IN" || m == "NOT IN"
  }

  /** The `WHERE` fragment one condition appends; an operator of neither
      kind appends nothing. */
  function ConditionText(l: string, field: string, m: string, n: nat): (r: string)
    ensures r == "" <==> !IsComparison(m) && !IsMembership(m)
    ensures r != "" ==> |r| > |l| + 2 && r[..|l| + 2] == " " + l + " "
  {
    if IsComparison(m) then " " + l + " " + field + " " + m + " ?"
    else if IsMembership(m) then " " + l + " " + field + " " + m + " (" + Join(Repeat("?", n), ",") + ") "
    else ""
  }

  /** The arguments one condition binds. */
  function ConditionArgs(m: string, vals: seq<Value>): (r: seq<Value>)
    requires IsComparison(m) ==> |vals| > 0
    ensures r <= vals
    ensures |r| == if IsComparison(m) then 1 else if IsMembership(m) then |vals| else 0
  {
    if IsComparison(m) then [vals[0]]
    else if IsMembership(m) then vals
    else []
  }

  /** The statement record after one condition. */
  function Condition(s: Sql, l: string, field: string, m: string, vals: seq<Value>): (r: Sql)
    requires IsComparison(m) ==> |vals| > 0
    ensures s.where <= r.where && s.args <= r.args
    ensures |r.args| <= |s.args| + |vals|
  {
    s.(where := s.where + ConditionText(l, field, m, |vals|), args := s.args + ConditionArgs(m, vals))
  }

  /** The `WHERE` text holds one `?` per bound argument. */
  predicate Aligned(s: Sql) {
    Count('?', s.where) == |s.args|
  }

  /** A condition's text holds exactly as many `?` as it binds arguments,
      provided the field name holds none. */
  lemma ConditionMarks(l: string, field: string, m: string, vals: seq<Value>)
    requires IsComparison(m) ==> |vals| > 0
    requires '?' !in l && '?' !in field
    ensures Count('?', ConditionText(l, field, m, |vals|)) == |ConditionArgs(m, vals)|
  {
    var head := " " + l + " " + field + " " + m;
    if IsComparison(m) {
      assert '?' !in head;
      Absent('?', head);
      CountConcat('?', head, " ?");
    } else if IsMembership(m) {
      assert '?' !in head;
      Absent('?', head);
      var marks := Join(Repeat("?", |vals|), ",");
      MarksJoined(|vals|, ",");
      assert ConditionText(l, field, m, |vals|) == head + " (" + marks + ") ";
      CountConcat('?', head, " (");
      CountConcat('?', head + " (", marks);
      CountConcat('?', head + " (" + marks, ") ");
    }
  }

  /** An operator of neither kind leaves the record as it was; the others
      append a comparison with one argument or a list with all of them. */
  lemma ConditionEffect(s: Sql, l: string, field: string, m: string, vals: seq<Value>)
    requires IsComparison(m) ==> |vals| > 0
    ensures !IsComparison(m) && !IsMembership(m) ==> Condition(s, l, field, m, vals) == s
    ensures IsComparison(m) ==> Condition(s, l, field, m, vals).args == s.args + [vals[0]]
    ensures IsMembership(m) ==> Condition(s, l, field, m, vals).args == s.args + vals
    ensures Condition(s, l, field, m, vals).(where := s.where, args := s.args) == s
  {
  }

  /** A condition keeps the `WHERE` text aligned with the arguments. */
  lemma ConditionAligned(s: Sql, l: string, field: string, m: string, vals: seq<Value>)
    requires IsComparison(m) ==> |vals| > 0
    requires '?' !in l && '?' !in field
    requires Aligned(s)
    ensures Aligned(Condition(s, l, field, m, vals))
  {
    ConditionMarks(l, field, m, vals);
    CountConcat('?', s.where, ConditionText(l, field, m, |vals|));
  }

  /** The logical connective each builder call writes: `Where` and `And`
      write `AND`, `Or` writes `OR`. */
  datatype Connective = WhereCall | AndCall | OrCall

  function Logic(c: Connective): (l: string)
    ensures l == "AND" || l == "OR"
    ensures l == "OR" <==> c == OrCall
  {
    if c == OrCall then "OR" else "AND"
  }

  /** One builder call: its connective, field, operator and values. */
  datatype Call = Call(conn: Connective, field: string, m: string, vals: seq<Value>)

  predicate Callable(c: Call) {
    IsComparison(c.m) ==> |c.vals| > 0
  }

  /** The statement record after a chain of builder calls, in order. */
  function ApplyCalls(s: Sql, calls: seq<Call>): (r: Sql)
    requires forall i :: 0 <= i < |calls| ==> Callable(calls[i])
    ensures |calls| == 0 ==> r == s
    ensures |r.args| >= |s.args|
    decreases |calls|
  {
    if |calls| == 0 then s
    else
      var c, pre := calls[|calls| - 1], calls[..|calls| - 1];
      assert forall i :: 0 <= i < |pre| ==> pre[i] == calls[i] && Callable(pre[i]);
      assert Callable(calls[|calls| - 1]);
      Condition(ApplyCalls(s, pre), Logic(c.conn), c.field, c.m, c.vals)
  }

  /** Any chain of conditions on fields without `?` keeps the statement
      aligned. */
  lemma {:induction false} AlignedAfterCalls(s: Sql, calls: seq<Call>)
    requires forall i :: 0 <= i < |calls| ==> Callable(calls[i]) && '?' !in calls[i].field
    requires Aligned(s)
    ensures Aligned(ApplyCalls(s, calls))
    decreases |calls|
  {
    if |calls| > 0 {
      var c, pre := calls[|calls| - 1], calls[..|calls| - 1];
      assert forall i :: 0 <= i < |pre| ==> pre[i] == calls[i];
      AlignedAfterCalls(s, pre);
      assert '?' !in Logic(c.conn);
      ConditionAligned(ApplyCalls(s, calls[..|calls| - 1]), Logic(c.conn), c.field, c.m, c.vals);
    }
  }

  /** A chain of conditions only appends: to the `WHERE` text and to the
      arguments. */
  lemma {:induction false} CallsAppend(s: Sql, calls: seq<Call>)
    requires forall i :: 0 <= i < |calls| ==> Callable(calls[i])
    ensures var r := ApplyCalls(s, calls);
      |r.where| >= |s.where| && r.where[..|s.where|] == s.where &&
      |r.args| >= |s.args| && r.args[..|s.args|] == s.args &&
      r.(where := s.where, args := s.args) == s
    decreases |calls|
  {
    if |calls| > 0 {
      var pre := calls[..|calls| - 1];
      assert forall i :: 0 <= i < |pre| ==> pre[i] == calls[i];
      CallsAppend(s, pre);
      var p := ApplyCalls(s, calls[..|calls| - 1]);
      var c := calls[|calls| - 1];
      var r := ApplyCalls(s, calls);
      assert r.where[..|p.where|] == p.where;
      assert r.args[..|p.args|] == p.args;
      assert r.where[..|s.where|] == p.where[..|s.where|];
      assert r.args[..|s.args|] == p.args[..|s.args|];
    }
  }

  // ---- Rendering --------------------------------------------------------

  /** The select list used when no fields were chosen: the primary key and
      then every other column, each as ``a.`name` ``. */
  function DefaultSelect(t: Table): (r: string)
    ensures var key := "a.`" + t.primary + "`"; |key| <= |r| && r[..|key|] == key
    ensures r[|r| - 1] == '`'
  {
    "a.`" + t.primary + "`, a.`" + Join(t.fields, "`, a.`") + "`"
  }

  /** With at least one column besides the key, the default list is the key
      and the columns, each wrapped and joined by `, `; with none it ends in
      an empty identifier. */
  lemma DefaultSelectLists(t: Table)
    ensures |t.fields| > 0 ==> DefaultSelect(t) == Join(Wrap([t.primary] + t.fields, "a.`", "`"), ", ")
    ensures |t.fields| == 0 ==> DefaultSelect(t) == "a.`" + t.primary + "`, a.``"
  {
    if |t.fields| > 0 {
      var cols := [t.primary] + t.fields;
      JoinWrap(cols, "a.`", "`", ", ");
      assert "`" + ", " + "a.`" == "`, a.`";
      assert cols[1..] == t.fields;
      assert Join(cols, "`, a.`") == t.primary + "`, a.`" + Join(t.fields, "`, a.`");
    }
  }

  /** `toString`: the `SELECT` statement for the table and the record; the
      `WHERE` text sits between the part before it and the part after. */
  function Render(t: Table, s: Sql): (r: string)
    ensures |r| >= 7 && r[..7] == "SELECT "
    ensures var h := |RenderHead(t, s)|; h + |s.where| <= |r| && r[h - 9..h] == " WHERE 1 " && r[h..h + |s.where|] == s.where
  {
    RenderHead(t, s) + s.where + RenderTail(s)
  }

  /** Up to the `WHERE 1 ` that opens the conditions. */
  function RenderHead(t: Table, s: Sql): (r: string)
    ensures |r| >= 16 && r[..7] == "SELECT " && r[|r| - 9..] == " WHERE 1 "
  {
    var sel := if |s.select| > 0 then s.select else DefaultSelect(t);
    "SELECT " + sel + " FROM " + t.name + " a " + s.join + " WHERE 1 "
  }

  /** From the end of the conditions to the locking clause. */
  function RenderTail(s: Sql): (r: string)
    ensures |s.forUpdate| < |r| && r[|r| - |s.forUpdate|..] == s.forUpdate
  {
    " " + s.order + " " + s.group + " " + s.having + " LIMIT " + DecimalString(s.offset as nat) + ", " +
    DecimalString(s.rows as nat) + " " + s.forUpdate
  }

  /** No `?` in the table's names. */
  predicate PlainTable(t: Table) {
    '?' !in t.name && '?' !in t.primary && forall i :: 0 <= i < |t.fields| ==> '?' !in t.fields[i]
  }

  /** No `?` in the clause fragments other than the `WHERE` text. */
  predicate PlainClauses(s: Sql) {
    '?' !in s.select && '?' !in s.join && '?' !in s.order && '?' !in s.group && '?' !in s.having &&
    '?' !in s.forUpdate
  }

  /** Joined parts without `?` hold no `?`. */
  lemma {:induction false} JoinPlain(parts: seq<string>, sep: string)
    requires '?' !in sep && forall i :: 0 <= i < |parts| ==> '?' !in parts[i]
    ensures '?' !in Join(parts, sep)
    decreases |parts|
  {
    if |parts| > 1 {
      JoinPlain(parts[1..], sep);
      assert '?' !in parts[0];
    }
  }

  /** The select list holds no `?`. */
  lemma SelectPlain(t: Table, s: Sql)
    requires PlainTable(t) && PlainClauses(s)
    ensures '?' !in (if |s.select| > 0 then s.select else DefaultSelect(t))
  {
    JoinPlain(t.fields, "`, a.`");
  }

  /** A fresh query pages by ten rows from the start; `Row` asks for one. */
  lemma LimitClauses(s: Sql)
    ensures RenderTail(s.(offset := 0, rows := 10)) ==
      " " + s.order + " " + s.group + " " + s.having + " LIMIT 0, 10 " + s.forUpdate
    ensures RenderTail(s.(offset := 0, rows := 1)) ==
      " " + s.order + " " + s.group + " " + s.having + " LIMIT 0, 1 " + s.forUpdate
  {
  }

  /** The part after the conditions holds no `?`. */
  lemma TailPlain(s: Sql)
    requires PlainClauses(s)
    ensures '?' !in RenderTail(s)
  {
  }

  /** The rendered statement holds one `?` per bound argument. */
  lemma RenderMarks(t: Table, s: Sql)
    requires PlainTable(t) && PlainClauses(s) && Aligned(s)
    ensures Count('?', Render(t, s)) == |s.args|
  {
    SelectPlain(t, s);
    TailPlain(s);
    CountBetween('?', RenderHead(t, s), s.where, RenderTail(s));
  }

  // ---- Insert, update, delete ---------------------------------------------

  /** The fields `Insert` binds: not embedded, `json`-tagged and not the key. */
  predicate Insertable(f: Field) {
    !f.anonymous && f.json != "" && f.pk == ""
  }

  /** The values `Insert` binds for one struct, in field order. */
  function InsertValues(item: seq<Member>): (r: seq<Value>)
    ensures |r| <= |item|
    decreases |item|
  {
    if |item| == 0 then []
    else
      var n := |item| - 1;
      InsertValues(item[..n]) + (if Insertable(item[n].field) then [item[n].value] else [])
  }

  /** The `(?, ?, ...)` group of one struct. */
  function InsertGroup(item: seq<Member>): string {
    "(" + Join(Repeat("?", |InsertValues(item)|), ", ") + ")"
  }

  /** The groups of all structs. */
  function InsertGroups(items: seq<seq<Member>>): (r: seq<string>)
    ensures |r| == |items| && forall k :: 0 <= k < |items| ==> r[k] == InsertGroup(items[k])
  {
    seq(|items|, k requires 0 <= k < |items| => InsertGroup(items[k]))
  }

  /** The values of all structs, struct after struct. */
  function InsertArgs(items: seq<seq<Member>>): (r: seq<Value>)
    ensures |items| > 0 ==> InsertValues(items[0]) <= r
    ensures |r| <= CountMembers(items)
    decreases |items|
  {
    if |items| == 0 then [] else InsertArgs(items[..|items| - 1]) + InsertValues(items[|items| - 1])
  }

  /** The number of fields over all structs. */
  function CountMembers(items: seq<seq<Member>>): nat
    decreases |items|
  {
    if |items| == 0 then 0 else CountMembers(items[..|items| - 1]) + |items[|items| - 1]|
  }

  /** The error `Insert` reports for no data. */
  const EmptyInsert := "empty insert data"

  /** The multi-row `INSERT` for the table, or the error for no data. */
  function InsertStatement(t: Table, items: seq<seq<Member>>): (r: Result<Statement, string>)
    ensures r.Failure? <==> |items| == 0
    ensures r.Failure? ==> r.error == EmptyInsert
    ensures r.Success? ==> r.value.args == InsertArgs(items) && |r.value.sql| >= 13 && r.value.sql[..13] == "INSERT INTO `"
  {
    if |items| == 0 then Failure(EmptyInsert)
    else Success(Statement(
      "INSERT INTO `" + t.name + "` (`" + Join(t.fields, "`, `") + "`) VALUES " + Join(InsertGroups(items), ","),
      InsertArgs(items)))
  }

  /** One assignment per entry, in iteration order. */
  function UpdateBody(data: seq<(string, Value)>): (r: seq<string>)
    ensures |r| == |data| && forall k :: 0 <= k < |data| ==> r[k] == data[k].0 + " = ?"
  {
    seq(|data|, k requires 0 <= k < |data| => data[k].0 + " = ?")
  }

  /** The values of the entries, in iteration order. */
  function UpdateValues(data: seq<(string, Value)>): (r: seq<Value>)
    ensures |r| == |data| && forall k :: 0 <= k < |data| ==> r[k] == data[k].1
  {
    seq(|data|, k requires 0 <= k < |data| => data[k].1)
  }

  /** The `UPDATE` for the table under the record's conditions. `data` is the
      update map as Go's iteration happens to list it. */
  function UpdateStatement(t: Table, s: Sql, data: seq<(string, Value)>): (r: Statement)
    ensures |r.args| == |data| + |s.args| && r.args[|data|..] == s.args
    ensures forall k :: 0 <= k < |data| ==> r.args[k] == data[k].1
    ensures |r.sql| >= 7 && r.sql[..7] == "UPDATE " && |s.where| <= |r.sql| && r.sql[|r.sql| - |s.where|..] == s.where
  {
    Statement("UPDATE " + t.name + " SET " + Join(UpdateBody(data), ", ") + " WHERE 1 " + s.where,
      UpdateValues(data) + s.args)
  }

  /** The `DELETE` for the table under the record's conditions. */
  function DeleteStatement(t: Table, s: Sql): (r: Statement)
    ensures r.args == s.args
    ensures |r.sql| >= 12 && r.sql[..12] == "DELETE FROM " && |s.where| <= |r.sql| && r.sql[|r.sql| - |s.where|..] == s.where
  {
    Statement("DELETE FROM " + t.name + " WHERE 1 " + s.where, s.args)
  }

  /** A struct's group holds one `?` per value it binds. */
  lemma GroupMarks(item: seq<Member>)
    ensures Count('?', InsertGroup(item)) == |InsertValues(item)|
  {
    var marks := Join(Repeat("?", |InsertValues(item)|), ", ");
    MarksJoined(|InsertValues(item)|, ", ");
    CountConcat('?', "(", marks);
    CountConcat('?', "(" + marks, ")");
  }

  /** The groups together hold one `?` per value bound. */
  lemma {:induction false} GroupsMarks(items: seq<seq<Member>>)
    ensures CountAll('?', InsertGroups(items)) == |InsertArgs(items)|
    decreases |items|
  {
    if |items| > 0 {
      var n := |items| - 1;
      GroupsMarks(items[..n]);
      GroupMarks(items[n]);
      assert InsertGroups(items[..n]) == InsertGroups(items)[..n];
      CountAllSnoc('?', InsertGroups(items));
    }
  }

  /** `CountAll` taken from the back. */
  lemma {:induction false} CountAllSnoc(c: char, parts: seq<string>)
    requires |parts| > 0
    ensures CountAll(c, parts) == CountAll(c, parts[..|parts| - 1]) + Count(c, parts[|parts| - 1])
    decreases |parts|
  {
    if |parts| > 1 {
      CountAllSnoc(c, parts[1..]);
      assert parts[1..][..|parts[1..]| - 1] == parts[..|parts| - 1][1..];
    }
  }

  /** The `INSERT` holds one `?` per bound argument. */
  lemma InsertMarks(t: Table, items: seq<seq<Member>>)
    requires PlainTable(t) && |items| > 0
    ensures Count('?', InsertStatement(t, items).value.sql) == |InsertStatement(t, items).value.args|
  {
    JoinPlain(t.fields, "`, `");
    var head := "INSERT INTO `" + t.name + "` (`" + Join(t.fields, "`, `") + "`) VALUES ";
    assert '?' !in head;
    var groups := Join(InsertGroups(items), ",");
    Absent('?', ",");
    CountJoin('?', InsertGroups(items), ",");
    GroupsMarks(items);
    assert head + groups + "" == head + groups;
    CountBetween('?', head, groups, "");
  }

  /** Fields the table descriptor and `Insert` treat alike: every field is
      not embedded and is `json`-tagged, and its `pk` tag is absent or `true`. */
  predicate Tagged(item: seq<Member>) {
    forall k :: 0 <= k < |item| ==>
      !item[k].field.anonymous && item[k].field.json != "" && item[k].field.pk in {"", "true"}
  }

  /** The fields of a struct value. */
  function FieldsOf(item: seq<Member>): (r: seq<Field>)
    ensures |r| == |item| && forall k :: 0 <= k < |item| ==> r[k] == item[k].field
  {
    seq(|item|, k requires 0 <= k < |item| => item[k].field)
  }

  /** For a fully tagged struct, `Insert` binds one value per column of the
      descriptor `TableFields` derives. */
  lemma {:induction false} TaggedInsertFits(item: seq<Member>)
    requires Tagged(item)
    ensures |InsertValues(item)| == |ColumnsOf(FieldsOf(item))|
    decreases |item|
  {
    if |item| > 0 {
      var n := |item| - 1;
      assert FieldsOf(item)[..n] == FieldsOf(item[..n]);
      assert Tagged(item[..n]) by {
        forall k | 0 <= k < n ensures !item[..n][k].field.anonymous && item[..n][k].field.json != "" &&
          item[..n][k].field.pk in {"", "true"} {
          assert item[..n][k] == item[k];
        }
      }
      TaggedInsertFits(item[..n]);
    }
  }

  /** The untagged struct of the descriptor test has two columns but binds
      no value in `Insert`. */
  lemma UntaggedInsertBindsNothing(a: Value, b: Value, c: Value)
    ensures var item := [Member(Field("RegionId", "", "true", false), a),
                         Member(Field("ParentRegionId", "", "", false), b),
                         Member(Field("Title", "", "", false), c)];
      |ColumnsOf(FieldsOf(item))| == 2 && InsertValues(item) == []
  {
    var item := [Member(Field("RegionId", "", "true", false), a),
                 Member(Field("ParentRegionId", "", "", false), b),
                 Member(Field("Title", "", "", false), c)];
    TableFieldsExamples();
    assert InsertValues(item[..1]) == [] by { assert item[..1][..0] == []; }
    assert item[..2][..1] == item[..1];
    assert InsertValues(item[..2]) == [];
    assert item[..3] == item;
    assert FieldsOf(item) == [Field("RegionId", "", "true", false), Field("ParentRegionId", "", "", false),
      Field("Title", "", "", false)];
  }

  /** The `UPDATE` holds one `?` per bound argument. */
  lemma UpdateMarks(t: Table, s: Sql, data: seq<(string, Value)>)
    requires '?' !in t.name && Aligned(s)
    requires forall k :: 0 <= k < |data| ==> '?' !in data[k].0
    ensures Count('?', UpdateStatement(t, s, data).sql) == |UpdateStatement(t, s, data).args|
  {
    var body := UpdateBody(data);
    BodyMarks(data);
    var head := "UPDATE " + t.name + " SET ";
    Absent('?', ", ");
    CountJoin('?', body, ", ");
    assert '?' !in head && '?' !in " WHERE 1 ";
    CountBetween('?', head, Join(body, ", "), " WHERE 1 ");
    CountConcat('?', head + Join(body, ", ") + " WHERE 1 ", s.where);
  }

  /** Every assignment holds one `?`. */
  lemma {:induction false} BodyMarks(data: seq<(string, Value)>)
    requires forall k :: 0 <= k < |data| ==> '?' !in data[k].0
    ensures CountAll('?', UpdateBody(data)) == |data|
    decreases |data|
  {
    if |data| > 0 {
      assert UpdateBody(data)[1..] == UpdateBody(data[1..]);
      BodyMarks(data[1..]);
      assert " = ?" == " = " + "?";
      assert '?' !in " = ";
      CountBetween('?', data[0].0 + " = ", "?", "");
      assert data[0].0 + " = " + "?" + "" == data[0].0 + " = ?";
    }
  }

  /** The `DELETE` holds one `?` per bound argument. */
  lemma DeleteMarks(t: Table, s: Sql)
    requires '?' !in t.name && Aligned(s)
    ensures Count('?', DeleteStatement(t, s).sql) == |DeleteStatement(t, s).args|
  {
    var head := "DELETE FROM " + t.name + " WHERE 1 ";
    assert '?' !in head;
    assert head + s.where + "" == head + s.where;
    CountBetween('?', head, s.where, "");
  }

  // ---- The builder ------------------------------------------------------

  /** One `?` and one bound value per insertable field of a struct. */
  method BindItem(item: seq<Member>) returns (sli: seq<string>, vals: seq<Value>)
    ensures sli == Repeat("?", |InsertValues(item)|) && vals == InsertValues(item)
  {
    sli := [];
    vals := [];
    for i := 0 to |item|
      invariant sli == Repeat("?", |InsertValues(item[..i])|)
      invariant vals == InsertValues(item[..i])
    {
      assert item[..i + 1][..i] == item[..i];
      if Insertable(item[i].field) {
        sli := sli + ["?"];
        vals := vals + [item[i].value];
      }
    }
    assert item[..|item|] == item;
  }

  /** A query under construction. */
  class Query {
    const table: Table
    var sql: Sql
    const execute: Execute

    /** `NewQuery`: no clauses yet, offset 0 and a page of 10 rows. */
    constructor (table: Table, dbKey: string, config: Config)
      ensures this.table == table && this.execute == Execute(dbKey, config)
      ensures sql == Sql("", "", "", "", "", "", "", 0, 10, "", [])
      ensures Aligned(sql) && PlainClauses(sql)
    {
      this.table := table;
      this.execute := Execute(dbKey, config);
      this.sql := Sql("", "", "", "", "", "", "", 0, 10, "", []);
    }

    /** Chooses the select list; none chosen means `*`. */
    method Fields(fields: seq<string>)
      modifies this
      ensures |fields| == 0 ==> sql == old(sql).(select := "*")
      ensures |fields| > 0 ==> sql == old(sql).(select := Join(fields, ", "))
    {
      var fs := fields;
      if |fs| == 0 {
        fs := fs + ["*"];
      }
      sql := sql.(select := Join(fs, ", "));
    }

    /** Appends one condition under the connective `l`. */
    method WhereNode(l: string, field: string, m: string, vals: seq<Value>)
      requires IsComparison(m) ==> |vals| > 0
      modifies this
      ensures sql == Condition(old(sql), l, field, m, vals)
    {
      if IsComparison(m) {
        var text := " " + l + " " + field + " " + m + " ?";
        sql := sql.(where := sql.where + text, args := sql.args + [vals[0]]);
      } else if IsMembership(m) {
        var w := new string[|vals|](_ => "");
        var args := sql.args;
        for i := 0 to |vals|
          invariant sql == old(sql)
          invariant forall j :: 0 <= j < i ==> w[j] == "?"
          invariant args == sql.args + vals[..i]
        {
          w[i] := "?";
          args := args + [vals[i]];
        }
        assert w[..] == Repeat("?", |vals|);
        assert vals[..|vals|] == vals;
        var text := " " + l + " " + field + " " + m + " (" + Join(w[..], ",") + ") ";
        sql := sql.(where := sql.where + text, args := args);
      }
    }

    /** The first condition; always joined by `AND`. */
    method Where(field: string, m: string, vals: seq<Value>)
      requires IsComparison(m) ==> |vals| > 0
      modifies this
      ensures sql == Condition(old(sql), "AND", field, m, vals)
    {
      WhereNode("AND", field, m, vals);
    }

    /** A further condition joined by `AND`. */
    method And(field: string, m: string, vals: seq<Value>)
      requires IsComparison(m) ==> |vals| > 0
      modifies this
      ensures sql == Condition(old(sql), "AND", field, m, vals)
    {
      WhereNode("AND", field, m, vals);
    }

    /** A further condition joined by `OR`. */
    method Or(field: string, m: string, vals: seq<Value>)
      requires IsComparison(m) ==> |vals| > 0
      modifies this
      ensures sql == Condition(old(sql), "OR", field, m, vals)
    {
      WhereNode("OR", field, m, vals);
    }

    /** Restricts the query to its first row and renders it. */
    method Row() returns (st: Statement)
      modifies this
      ensures sql == old(sql).(offset := 0, rows := 1)
      ensures st == Statement(Render(table, sql), sql.args)
    {
      sql := sql.(offset := 0, rows := 1);
      st := Statement(Render(table, sql), sql.args);
    }

    /** Renders the query with its current page. */
    method Rows() returns (st: Statement)
      ensures st == Statement(Render(table, sql), sql.args)
    {
      st := Statement(Render(table, sql), sql.args);
    }

    /** Renders the multi-row `INSERT` of the structs `data`. */
    method Insert(data: seq<seq<Member>>) returns (r: Result<Statement, string>)
      ensures r == InsertStatement(table, data)
    {
      if |data| == 0 {
        return Failure(EmptyInsert);
      }
      var insertVal: seq<string> := [];
      var insertArgs: seq<Value> := [];
      for k := 0 to |data|
        invariant insertVal == InsertGroups(data[..k])
        invariant insertArgs == InsertArgs(data[..k])
      {
        var sli, vals := BindItem(data[k]);
        insertArgs := insertArgs + vals;
        assert data[..k + 1][..k] == data[..k];
        insertVal := insertVal + ["(" + Join(sli, ", ") + ")"];
      }
      assert data[..|data|] == data;
      var insertSql := "INSERT INTO `" + table.name + "` (`" + Join(table.fields, "`, `") + "`) VALUES " +
        Join(insertVal, ",");
      return Success(Statement(insertSql, insertArgs));
    }

    /** Renders the `UPDATE` setting the entries of `data` under the
        current conditions. */
    method Update(data: seq<(string, Value)>) returns (st: Statement)
      ensures st == UpdateStatement(table, sql, data)
    {
      var updateBody: seq<string> := [];
      var updateArgs: seq<Value> := [];
      for k := 0 to |data|
        invariant updateBody == UpdateBody(data[..k])
        invariant updateArgs == UpdateValues(data[..k])
      {
        var (key, element) := data[k];
        updateBody := updateBody + [key + " = ?"];
        updateArgs := updateArgs + [element];
      }
      assert data[..|data|] == data;
      var updateSql := "UPDATE " + table.name + " SET " + Join(updateBody, ", ") + " WHERE 1 " + sql.where;
      updateArgs := updateArgs + sql.args;
      st := Statement(updateSql, updateArgs);
    }

    /** Renders the `DELETE` under the current conditions. */
    method Delete() returns (st: Statement)
      ensures st == DeleteStatement(table, sql)
    {
      st := Statement("DELETE FROM " + table.name + " WHERE 1 " + sql.where, sql.args);
    }
  }
}
