/** server.go: a named database server, the dialect translator that turns
    canonical SQL (double-quoted identifiers, `$N` placeholders) into each
    backend's syntax, and the assembly of result rows into the caller's
    destination by `Row` and `Rows`. */
module Server {
  import opened Wrappers
  import opened Strings
  import opened Driver
  import opened Reflection
  import Util

  /** A database server: its cache key, its driver type ("mysql",
      "postgres" or "sqlite3"), its data source name and `Follow`. */
  datatype Server = Server(name: string, dbType: string, dsn: string, follow: string)

  /** A server's cache key is its type followed by its name. */
  function NewServer(name: string, typ: string, dsn: string): (s: Server)
    ensures s.name == typ + name && s.dbType == typ && s.dsn == dsn && s.follow == ""
  {
    Server(typ + name, typ, dsn, "")
  }

  /** Alias of `NewServer`. */
  function Connect(name: string, typ: string, dsn: string): (s: Server)
    ensures s == NewServer(name, typ, dsn)
  {
    NewServer(name, typ, dsn)
  }

  /** Servers of one type get distinct cache keys exactly when their names
      differ. */
  lemma CacheKeysDistinct(name1: string, name2: string, typ: string, dsn1: string, dsn2: string)
    ensures NewServer(name1, typ, dsn1).name == NewServer(name2, typ, dsn2).name <==> name1 == name2
  {
    if NewServer(name1, typ, dsn1).name == NewServer(name2, typ, dsn2).name {
      assert name1 == (typ + name1)[|typ|..];
      assert name2 == (typ + name2)[|typ|..];
    }
  }

  /** Across types the key is ambiguous: moving a non-empty piece from the
      end of the type to the front of the name keeps the key, though the
      servers differ in type (`"sqlx" + "my"` and `"x" + "mysql"`). */
  lemma CacheKeysCollide(name: string, typ: string, piece: string, dsn1: string, dsn2: string)
    requires piece != ""
    ensures NewServer(name, typ + piece, dsn1).name == NewServer(piece + name, typ, dsn2).name
    ensures NewServer(name, typ + piece, dsn1).dbType != NewServer(piece + name, typ, dsn2).dbType
  {
    assert (typ + piece) + name == typ + (piece + name);
    assert |typ + piece| != |typ|;
  }

  // ---- Dialect translation ----------------------------------------------

  /** Replaces every double quote by a backtick (`strings.Replace` with
      count -1). */
  function ParseQuotes(s: string): (r: string)
    ensures |r| == |s|
    ensures forall i :: 0 <= i < |s| ==> r[i] == (if s[i] == '"' then '`' else s[i])
    ensures '"' !in r
    decreases |s|
  {
    if |s| == 0 then "" else [if s[0] == '"' then '`' else s[0]] + ParseQuotes(s[1..])
  }

  /** Length of the run of decimal digits `t` starts with. */
  function LeadingDigits(t: string): (k: nat)
    ensures k <= |t| && AllDigits(t[..k]) && (k == |t| || !IsDigit(t[k]))
    decreases |t|
  {
    if |t| == 0 || !IsDigit(t[0]) then 0 else 1 + LeadingDigits(t[1..])
  }

  /** `s` starts with a match of the regular expression `\$(\d+)`. */
  predicate StartsPlaceholder(s: string) {
    |s| > 1 && s[0] == '$' && IsDigit(s[1])
  }

  /** Length of the placeholder `s` starts with: `$` and all its digits. */
  function PlaceholderLength(s: string): (n: nat)
    requires StartsPlaceholder(s)
    ensures 2 <= n <= |s| && s[0] == '$' && AllDigits(s[1..n])
    ensures n == |s| || !IsDigit(s[n])
  {
    var k := LeadingDigits(s[1..]);
    assert s[1..][..k] == s[1..1 + k];
    1 + k
  }

  /** The numbers written in the placeholders of `s`, left to right: the
      submatches `re.FindAllStringSubmatch` finds for `\$(\d+)`, parsed. */
  function Placeholders(s: string): (r: seq<nat>)
    ensures 2 * |r| <= |s|
    decreases |s|
  {
    if |s| == 0 then []
    else if StartsPlaceholder(s) then
      var n := PlaceholderLength(s);
      [DigitsValue(s[1..n])] + Placeholders(s[n..])
    else Placeholders(s[1..])
  }

  /** `s` with every placeholder replaced by `?` (`re.ReplaceAllString`). */
  function ReplacePlaceholders(s: string): (r: string)
    ensures |r| + |Placeholders(s)| <= |s|
    decreases |s|
  {
    if |s| == 0 then ""
    else if StartsPlaceholder(s) then "?" + ReplacePlaceholders(s[PlaceholderLength(s)..])
    else [s[0]] + ReplacePlaceholders(s[1..])
  }

  /** No `$` in `t` is followed by a digit. */
  predicate NoPlaceholder(t: string) {
    forall i :: 0 <= i < |t| - 1 ==> !(t[i] == '$' && IsDigit(t[i + 1]))
  }

  /** The error a placeholder naming no argument raises. */
  const OutOfRange := "placeholder index out of range"

  /** Every number in `ns` names one of `n` arguments. */
  predicate InRange(ns: seq<nat>, n: nat) {
    forall i :: 0 <= i < |ns| ==> 1 <= ns[i] <= n
  }

  /** The arguments the placeholder numbers `ns` name, in order. */
  function Pick(ns: seq<nat>, args: seq<Value>): (r: seq<Value>)
    requires InRange(ns, |args|)
  {
    seq(|ns|, i requires 0 <= i < |ns| => args[ns[i] - 1])
  }

  /** The rewrite `parseParameters` performs: `?` for every placeholder, and
      the argument each placeholder names, or an error when one names none. */
  function Rewrite(str: string, args: seq<Value>): (r: Result<Statement, string>)
    ensures r.Success? ==> NoPlaceholder(r.value.sql) && |r.value.args| == |Placeholders(str)|
    ensures r.Failure? ==> r.error == OutOfRange && exists i :: 0 <= i < |Placeholders(str)| && !(1 <= Placeholders(str)[i] <= |args|)
  {
    ReplaceLeavesNoPlaceholder(str);
    var ns := Placeholders(str);
    if InRange(ns, |args|) then Success(Statement(ReplacePlaceholders(str), Pick(ns, args)))
    else Failure(OutOfRange)
  }

  /** Rewrites `$1, $2, ...` to `?, ?, ...` and builds the argument list
      placeholder by placeholder. */
  method ParseParameters(str: string, args: seq<Value>) returns (r: Result<Statement, string>)
    ensures r == Rewrite(str, args)
  {
    var sli := Placeholders(str);
    var newArgs := new Value[|sli|](_ => Nil);
    for i := 0 to |sli|
      invariant forall j :: 0 <= j < i ==> 1 <= sli[j] <= |args| && newArgs[j] == args[sli[j] - 1]
    {
      var vi := sli[i];
      if vi < 1 || vi > |args| {
        return Failure(OutOfRange);
      }
      newArgs[i] := args[vi - 1];
    }
    assert newArgs[..] == Pick(sli, args);
    return Success(Statement(ReplacePlaceholders(str), newArgs[..]));
  }

  /** Translates canonical SQL for the server's backend: MySQL gets
      backticks and `?`, SQLite gets `?`, PostgreSQL and any unknown type get
      the statement unchanged. */
  method ParseSql(e: Server, str: string, args: seq<Value>) returns (r: Result<Statement, string>)
    ensures e.dbType == "mysql" ==> r == Rewrite(ParseQuotes(str), args)
    ensures e.dbType == "sqlite3" ==> r == Rewrite(str, args)
    ensures e.dbType != "mysql" && e.dbType != "sqlite3" ==> r == Success(Statement(str, args))
  {
    match e.dbType
    case "postgres" =>
      return Success(Statement(str, args));
    case "mysql" =>
      var quoted := ParseQuotes(str);
      r := ParseParameters(quoted, args);
    case "sqlite3" =>
      r := ParseParameters(str, args);
    case _ =>
      return Success(Statement(str, args));
  }

  /** The rewrite succeeds exactly when every placeholder names an argument;
      it then binds one argument per placeholder, the one its number names. */
  lemma RewriteArgs(str: string, args: seq<Value>)
    ensures Rewrite(str, args).Success? <==> forall i :: 0 <= i < |Placeholders(str)| ==> 1 <= Placeholders(str)[i] <= |args|
    ensures Rewrite(str, args).Success? ==>
      var st := Rewrite(str, args).value;
      |st.args| == |Placeholders(str)| &&
      forall i :: 0 <= i < |st.args| ==> st.args[i] == args[Placeholders(str)[i] - 1]
    ensures Rewrite(str, args).Failure? ==> Rewrite(str, args).error == OutOfRange
  {
  }

  /** For SQLite the double quotes survive the rewrite. */
  lemma SqliteKeepsQuotes(str: string, args: seq<Value>)
    requires Rewrite(str, args).Success?
    ensures Count('"', Rewrite(str, args).value.sql) == Count('"', str)
  {
    ReplaceKeepsQuotes(str);
  }

  /** The first character of the rewritten text: `?` for a placeholder, the
      input's own first character otherwise. */
  lemma ReplaceHead(s: string)
    requires |s| > 0
    ensures |ReplacePlaceholders(s)| > 0
    ensures ReplacePlaceholders(s)[0] == if StartsPlaceholder(s) then '?' else s[0]
  {
  }

  /** No placeholder survives the rewrite. */
  lemma {:induction false} ReplaceLeavesNoPlaceholder(s: string)
    ensures NoPlaceholder(ReplacePlaceholders(s))
    decreases |s|
  {
    if |s| > 0 {
      if StartsPlaceholder(s) {
        ReplaceLeavesNoPlaceholder(s[PlaceholderLength(s)..]);
      } else {
        var tail := ReplacePlaceholders(s[1..]);
        ReplaceLeavesNoPlaceholder(s[1..]);
        if |s| > 1 {
          ReplaceHead(s[1..]);
          assert s[0] == '$' ==> !IsDigit(tail[0]);
        }
        assert ReplacePlaceholders(s) == [s[0]] + tail;
      }
    }
  }

  /** The text of a placeholder holds no character other than `$` and digits. */
  lemma PlaceholderTextHolds(s: string, c: char)
    requires StartsPlaceholder(s) && c != '$' && !IsDigit(c)
    ensures Count(c, s) == Count(c, s[PlaceholderLength(s)..])
  {
    var n := PlaceholderLength(s);
    assert s == [s[0]] + s[1..n] + s[n..];
    CountConcat(c, [s[0]], s[1..n]);
    CountConcat(c, [s[0]] + s[1..n], s[n..]);
    DigitsHoldNo(c, s[1..n]);
  }

  /** Each placeholder becomes exactly one `?`. */
  lemma {:induction false} ReplaceCountsMarks(s: string)
    ensures Count('?', ReplacePlaceholders(s)) == Count('?', s) + |Placeholders(s)|
    decreases |s|
  {
    if |s| > 0 {
      if StartsPlaceholder(s) {
        var n := PlaceholderLength(s);
        ReplaceCountsMarks(s[n..]);
        PlaceholderTextHolds(s, '?');
        CountConcat('?', "?", ReplacePlaceholders(s[n..]));
      } else {
        ReplaceCountsMarks(s[1..]);
        assert s == [s[0]] + s[1..];
        CountConcat('?', [s[0]], s[1..]);
        CountConcat('?', [s[0]], ReplacePlaceholders(s[1..]));
      }
    }
  }

  /** The rewrite keeps every double quote, so SQLite sees them unchanged. */
  lemma {:induction false} ReplaceKeepsQuotes(s: string)
    ensures Count('"', ReplacePlaceholders(s)) == Count('"', s)
    decreases |s|
  {
    if |s| > 0 {
      if StartsPlaceholder(s) {
        var n := PlaceholderLength(s);
        ReplaceKeepsQuotes(s[n..]);
        PlaceholderTextHolds(s, '"');
        CountConcat('"', "?", ReplacePlaceholders(s[n..]));
      } else {
        ReplaceKeepsQuotes(s[1..]);
        assert s == [s[0]] + s[1..];
        CountConcat('"', [s[0]], s[1..]);
        CountConcat('"', [s[0]], ReplacePlaceholders(s[1..]));
      }
    }
  }

  /** Text without placeholders is left alone and binds nothing. */
  lemma {:induction false} NoPlaceholderUnchanged(s: string)
    requires NoPlaceholder(s)
    ensures ReplacePlaceholders(s) == s && Placeholders(s) == []
    decreases |s|
  {
    if |s| > 0 {
      assert !StartsPlaceholder(s);
      NoPlaceholderUnchanged(s[1..]);
    }
  }

  /** Rewriting twice is rewriting once. */
  lemma ReplaceIdempotent(s: string)
    ensures ReplacePlaceholders(ReplacePlaceholders(s)) == ReplacePlaceholders(s)
  {
    ReplaceLeavesNoPlaceholder(s);
    NoPlaceholderUnchanged(ReplacePlaceholders(s));
  }

  /** When the placeholders are `$1 .. $k` in order, the arguments are the
      first `k`, in order. */
  lemma AscendingPicksPrefix(str: string, args: seq<Value>)
    requires forall i :: 0 <= i < |Placeholders(str)| ==> Placeholders(str)[i] == i + 1
    requires |Placeholders(str)| <= |args|
    ensures Rewrite(str, args) == Success(Statement(ReplacePlaceholders(str), args[..|Placeholders(str)|]))
  {
    var ns := Placeholders(str);
    assert Pick(ns, args) == args[..|ns|];
  }

  /** The MySQL output has no double quote and no placeholder, one `?` per
      bound argument more than the input had, and binds one argument per
      placeholder. */
  lemma MysqlOutput(str: string, args: seq<Value>)
    requires Rewrite(ParseQuotes(str), args).Success?
    ensures var st := Rewrite(ParseQuotes(str), args).value;
      '"' !in st.sql && NoPlaceholder(st.sql) &&
      Count('?', st.sql) == Count('?', str) + |st.args| &&
      |st.args| == |Placeholders(ParseQuotes(str))|
  {
    var q := ParseQuotes(str);
    ReplaceKeepsQuotes(q);
    ReplaceLeavesNoPlaceholder(q);
    ReplaceCountsMarks(q);
    Absent('"', q);
    Absent('"', ReplacePlaceholders(q));
    QuotesKeepOthers(str, '?');
  }

  /** Quote conversion keeps the count of every character other than the
      two quotes. */
  lemma {:induction false} QuotesKeepOthers(s: string, ch: char)
    requires ch != '"' && ch != '`'
    ensures Count(ch, ParseQuotes(s)) == Count(ch, s)
    decreases |s|
  {
    if |s| > 0 {
      QuotesKeepOthers(s[1..], ch);
      assert s == [s[0]] + s[1..];
      CountConcat(ch, [s[0]], s[1..]);
      CountConcat(ch, [if s[0] == '"' then '`' else s[0]], ParseQuotes(s[1..]));
    }
  }

  // ---- A worked translation ---------------------------------------------

  /** Text without `$` passes through the rewrite and binds nothing. */
  lemma {:induction false} PlainText(t: string, rest: string)
    requires '$' !in t
    ensures Placeholders(t + rest) == Placeholders(rest)
    ensures ReplacePlaceholders(t + rest) == t + ReplacePlaceholders(rest)
    decreases |t|
  {
    if |t| > 0 {
      assert (t + rest)[0] == t[0] && t[0] != '$';
      assert !StartsPlaceholder(t + rest);
      assert (t + rest)[1..] == t[1..] + rest;
      PlainText(t[1..], rest);
      assert t == [t[0]] + t[1..];
    } else {
      assert t + rest == rest;
    }
  }

  /** A one-digit placeholder becomes one `?` and names its digit. */
  lemma OneDigit(d: char, rest: string)
    requires IsDigit(d) && (|rest| == 0 || !IsDigit(rest[0]))
    ensures Placeholders(['$', d] + rest) == [DigitValue(d)] + Placeholders(rest)
    ensures ReplacePlaceholders(['$', d] + rest) == "?" + ReplacePlaceholders(rest)
  {
    var s := ['$', d] + rest;
    assert StartsPlaceholder(s);
    assert s[1..] == [d] + rest;
    assert ([d] + rest)[1..] == rest;
    assert LeadingDigits(rest) == 0;
    assert LeadingDigits([d] + rest) == 1;
    assert PlaceholderLength(s) == 2;
    assert s[2..] == rest;
    assert s[1..2] == [d];
    assert [d][..0] == [];
    assert DigitsValue([d]) == DigitValue(d);
  }

  /** Quote conversion works piecewise. */
  lemma QuotesConcat(a: string, b: string)
    ensures ParseQuotes(a + b) == ParseQuotes(a) + ParseQuotes(b)
  {
  }

  /** The MySQL translation of `"a" = $1`: quotes first, then placeholders. */
  lemma ExampleQuotes()
    ensures ParseQuotes("\"a\" = $1") == "`a` = $1"
  {
  }

  /** The placeholder step of that translation. */
  lemma ExampleRewrite(a: Value)
    ensures Rewrite("`a` = $1", [a]) == Success(Statement("`a` = ?", [a]))
  {
    assert "`a` = $1" == "`a` = " + (['$', '1'] + "");
    OneDigit('1', "");
    PlainText("`a` = ", ['$', '1'] + "");
    assert Placeholders("`a` = $1") == [1];
    assert ReplacePlaceholders("`a` = $1") == "`a` = ?";
    assert InRange([1], 1);
    assert Pick([1], [a]) == [a];
  }

  /** A repeated placeholder binds its argument again. */
  lemma RepeatedPlaceholder(a: Value)
    ensures Rewrite("$1 $1", [a]) == Success(Statement("? ?", [a, a]))
  {
    assert "$1 $1" == ['$', '1'] + (" " + (['$', '1'] + ""));
    OneDigit('1', "");
    PlainText(" ", ['$', '1'] + "");
    OneDigit('1', " " + (['$', '1'] + ""));
    assert Placeholders("$1 $1") == [1, 1];
    assert ReplacePlaceholders("$1 $1") == "? ?";
    assert InRange([1, 1], 1);
    assert Pick([1, 1], [a]) == [a, a];
  }

  /** MySQL receives `` `a` = ? `` with the one argument bound. */
  lemma MysqlExample(a: Value)
    ensures Rewrite(ParseQuotes("\"a\" = $1"), [a]) == Success(Statement("`a` = ?", [a]))
  {
    ExampleQuotes();
    ExampleRewrite(a);
  }

  // ---- Row assembly -----------------------------------------------------

  /** What a destination holds: a struct (its field values in declaration
      order), a `map[string]interface{}`, a `[]interface{}` row, or a slice
      of such rows. */
  datatype Datum =
    | Record(fields: seq<Value>)
    | Dict(entries: map<string, Value>)
    | Cells(values: seq<Value>)
    | List(items: seq<Datum>)

  /** The kinds a row can be scanned into: a struct, a map or a slice. */
  predicate IsRowType(k: Kind) {
    k.Struct? || k.Map? || k.Slice?
  }

  /** What Go's types guarantee about a variable of type `k`: a map holds a
      map, a struct its fields, a slice of rows a list of rows, and any other
      slice (`[]interface{}`) a row of cells. */
  predicate Fits(k: Kind, d: Datum) {
    match k
    case Map => d.Dict?
    case Struct(fs) => d.Record? && |d.fields| == |fs|
    case Slice(e) => if IsRowType(e) then d.List? else d.Cells?
    case _ => true
  }

  /** The variable a caller passes by pointer to `Row` or `Rows`: its static
      type and its current contents. */
  class Destination {
    const shape: Kind
    var value: Datum

    constructor (shape: Kind, value: Datum)
      requires shape.Ptr? ==> Fits(shape.elem, value)
      ensures Valid()
      ensures this.shape == shape && this.value == value
    {
      this.shape := shape;
      this.value := value;
    }

    /** The pointed-to variable holds a value of its type. */
    predicate Valid()
      reads this
    {
      shape.Ptr? ==> Fits(shape.elem, value)
    }
  }

  /** The error `rows.Scan` reports for a nil scan target (the slot of an
      embedded struct field). */
  const NilDestination := "destination not a pointer"

  /** What `rows.Scan` makes of one step of the cursor: the row's values,
      or the error the driver reported, or the nil-target error. */
  function Scan(plan: ScanPlan, f: Fetch): (r: Result<seq<Value>, string>)
    ensures r.Success? <==> f.Fetched? && Unset !in plan.slots
    ensures r.Success? ==> r.value == f.values
    ensures f.ScanFailed? ==> r == Failure(f.reason)
  {
    match f
    case ScanFailed(reason) => Failure(reason)
    case Fetched(values) => if Unset in plan.slots then Failure(NilDestination) else Success(values)
  }

  /** The map row: each column name bound to its coerced value; of two
      columns with one name, the later wins. */
  function MapRow(columns: seq<string>, values: seq<Value>): (r: map<string, Value>)
    requires |columns| == |values|
    ensures |columns| > 0 ==> columns[|columns| - 1] in r && r[columns[|columns| - 1]] == Util.TypeAssertion(values[|columns| - 1])
    decreases |columns|
  {
    if |columns| == 0 then map[]
    else
      var n := |columns| - 1;
      MapRow(columns[..n], values[..n])[columns[n] := Util.TypeAssertion(values[n])]
  }

  /** The slice row: every value coerced, in column order. */
  function ListRow(values: seq<Value>): (r: seq<Value>)
    ensures |r| == |values|
    ensures forall i :: 0 <= i < |values| ==> r[i] == Util.TypeAssertion(values[i])
  {
    seq(|values|, i requires 0 <= i < |values| => Util.TypeAssertion(values[i]))
  }

  /** The element a scanned row becomes, by the plan's element kind. */
  function Materialize(kind: ElemKind, columns: seq<string>, values: seq<Value>): Datum
    requires |columns| == |values|
  {
    match kind
    case StructKind => Record(values)
    case MapKind => Dict(MapRow(columns, values))
    case SliceKind => Cells(ListRow(values))
  }

  /** One step of the cursor, scanned and materialized. */
  function ScanRow(plan: ScanPlan, columns: seq<string>, f: Fetch): Result<Datum, string>
    requires f.Fetched? ==> |f.values| == |columns|
  {
    match Scan(plan, f)
    case Failure(e) => Failure(e)
    case Success(values) => Success(Materialize(plan.kind, columns, values))
  }

  /** Every step scans into a row. */
  predicate AllScan(plan: ScanPlan, columns: seq<string>, fs: seq<Fetch>)
    requires RowsFit(columns, fs)
  {
    forall k :: 0 <= k < |fs| ==> ScanRow(plan, columns, fs[k]).Success?
  }

  /** The rows appended before the first step that fails to scan. */
  function Collect(plan: ScanPlan, columns: seq<string>, fs: seq<Fetch>): (r: seq<Datum>)
    requires RowsFit(columns, fs)
    ensures |r| <= |fs|
    decreases |fs|
  {
    if |fs| == 0 then []
    else match ScanRow(plan, columns, fs[0])
      case Failure(_) => []
      case Success(d) => [d] + Collect(plan, columns, fs[1..])
  }

  /** The error of the first step that fails to scan, if any. */
  function FirstError(plan: ScanPlan, columns: seq<string>, fs: seq<Fetch>): (r: Option<string>)
    requires RowsFit(columns, fs)
    ensures r.None? <==> |Collect(plan, columns, fs)| == |fs|
    decreases |fs|
  {
    if |fs| == 0 then None
    else match ScanRow(plan, columns, fs[0])
      case Failure(e) => Some(e)
      case Success(_) => FirstError(plan, columns, fs[1..])
  }

  /** The outcome of `Row`: the destination's new contents and the error
      returned. */
  function RowOutcome(shape: Kind, query: Result<Cursor, string>, prior: Datum): (r: (Datum, Option<string>))
    requires query.Success? ==> WellFormed(query.value)
    ensures query.Failure? ==> r == (prior, Some(query.error))
    ensures r.1.None? ==> query.Success? && PlanFor(Util.Messages, shape, |query.value.columns|, false).Success?
  {
    match query
    case Failure(e) => (prior, Some(e))
    case Success(cur) =>
      match PlanFor(Util.Messages, shape, |cur.columns|, false)
      case Failure(e) => (prior, Some(e))
      case Success(plan) =>
        if |cur.fetches| == 0 then (prior, cur.err)
        else match ScanRow(plan, cur.columns, cur.fetches[0])
          case Failure(e) => (prior, Some(e))
          case Success(d) => (d, None)
  }

  /** The outcome of `Rows`: the rows appended to the destination slice and
      the error returned. */
  function RowsOutcome(shape: Kind, query: Result<Cursor, string>, prior: seq<Datum>): (r: (seq<Datum>, Option<string>))
    requires query.Success? ==> WellFormed(query.value)
    ensures query.Failure? ==> r == (prior, Some(query.error))
    ensures r.1.None? ==> query.Success? && PlanFor(Util.Messages, shape, |query.value.columns|, true).Success?
  {
    match query
    case Failure(e) => (prior, Some(e))
    case Success(cur) =>
      match PlanFor(Util.Messages, shape, |cur.columns|, true)
      case Failure(e) => (prior, Some(e))
      case Success(plan) =>
        var first := FirstError(plan, cur.columns, cur.fetches);
        (prior + Collect(plan, cur.columns, cur.fetches), if first.Some? then first else cur.err)
  }

  /** Builds the map row column by column. */
  method AssembleMap(columns: seq<string>, values: seq<Value>) returns (row: map<string, Value>)
    requires |columns| == |values|
    ensures row == MapRow(columns, values)
  {
    row := map[];
    for i := 0 to |columns|
      invariant row == MapRow(columns[..i], values[..i])
    {
      assert columns[..i + 1][..i] == columns[..i];
      assert values[..i + 1][..i] == values[..i];
      row := row[columns[i] := Util.TypeAssertion(values[i])];
    }
    assert columns[..|columns|] == columns && values[..|values|] == values;
  }

  /** Builds the slice row cell by cell. */
  method AssembleList(values: seq<Value>) returns (row: seq<Value>)
    ensures row == ListRow(values)
  {
    var cells := new Value[|values|](_ => Nil);
    for i := 0 to |values|
      invariant forall j :: 0 <= j < i ==> cells[j] == Util.TypeAssertion(values[j])
    {
      cells[i] := Util.TypeAssertion(values[i]);
    }
    row := cells[..];
  }

  /** Turns a scanned row into the element its plan calls for. */
  method Assemble(kind: ElemKind, columns: seq<string>, values: seq<Value>) returns (d: Datum)
    requires |columns| == |values|
    ensures d == Materialize(kind, columns, values)
  {
    match kind
    case StructKind =>
      d := Record(values);
    case MapKind =>
      var row := AssembleMap(columns, values);
      d := Dict(row);
    case SliceKind =>
      var row := AssembleList(values);
      d := Cells(row);
  }

  /** Scans the first row of the result into `dest`. `query` is the outcome
      of preparing and running the statement. */
  method Row(dest: Destination, query: Result<Cursor, string>) returns (err: Option<string>)
    requires query.Success? ==> WellFormed(query.value)
    requires dest.Valid()
    requires dest.shape.Ptr? && dest.shape.elem.Slice? ==> !IsRowType(dest.shape.elem.elem)
    modifies dest
    ensures dest.Valid()
    ensures (dest.value, err) == RowOutcome(dest.shape, query, old(dest.value))
  {
    if query.Failure? {
      return Some(query.error);
    }
    var cur := query.value;
    var columnsLen := |cur.columns|;
    var plan := Util.ScanVariables(dest.shape, columnsLen, false);
    if plan.Failure? {
      return Some(plan.error);
    }
    if |cur.fetches| > 0 {
      var scanned := Scan(plan.value, cur.fetches[0]);
      if scanned.Failure? {
        return Some(scanned.error);
      }
      var d := Assemble(plan.value.kind, cur.columns, scanned.value);
      dest.value := d;
      return None;
    }
    return cur.err;
  }

  /** Scans every row of the result and appends each to the slice `dest`
      points to, stopping at the first row that fails to scan. */
  method Rows(dest: Destination, query: Result<Cursor, string>) returns (err: Option<string>)
    requires query.Success? ==> WellFormed(query.value)
    requires dest.Valid()
    modifies dest
    ensures dest.Valid()
    ensures old(dest.value).List? ==>
      (dest.value, err) == (List(RowsOutcome(dest.shape, query, old(dest.value).items).0),
                            RowsOutcome(dest.shape, query, old(dest.value).items).1)
    ensures !old(dest.value).List? ==> dest.value == old(dest.value) && err.Some?
  {
    if query.Failure? {
      return Some(query.error);
    }
    var cur := query.value;
    var columnsLen := |cur.columns|;
    var plan := Util.ScanVariables(dest.shape, columnsLen, true);
    if plan.Failure? {
      return Some(plan.error);
    }
    var p := plan.value;
    var fs := cur.fetches;
    ghost var items0 := dest.value.items;
    for i := 0 to |fs|
      invariant dest.value.List?
      invariant RowsFit(cur.columns, fs[i..])
      invariant items0 + Collect(p, cur.columns, fs) == dest.value.items + Collect(p, cur.columns, fs[i..])
      invariant FirstError(p, cur.columns, fs) == FirstError(p, cur.columns, fs[i..])
    {
      assert fs[i..][0] == fs[i] && fs[i..][1..] == fs[i + 1..];
      var scanned := Scan(p, fs[i]);
      if scanned.Failure? {
        assert Collect(p, cur.columns, fs[i..]) == [];
        assert dest.value.items + [] == dest.value.items;
        return Some(scanned.error);
      }
      var d := Assemble(p.kind, cur.columns, scanned.value);
      dest.value := List(dest.value.items + [d]);
    }
    assert fs[|fs|..] == [];
    assert dest.value.items + [] == dest.value.items;
    return cur.err;
  }

  /** What `Row` stores fits the pointee's type, unless the pointee is a
      slice of rows, which `val.Set` of a `[]interface{}` would not accept. */
  lemma RowKeepsFit(shape: Kind, query: Result<Cursor, string>, prior: Datum)
    requires query.Success? ==> WellFormed(query.value)
    requires shape.Ptr? && Fits(shape.elem, prior)
    requires shape.elem.Slice? ==> !IsRowType(shape.elem.elem)
    ensures Fits(shape.elem, RowOutcome(shape, query, prior).0)
  {
    if query.Success? && |query.value.fetches| > 0 && query.value.fetches[0].Fetched? {
      assert |query.value.fetches[0].values| == |query.value.columns|;
    }
  }

  /** The map row has exactly the column names as keys. */
  lemma {:induction false} MapRowKeys(columns: seq<string>, values: seq<Value>)
    requires |columns| == |values|
    ensures MapRow(columns, values).Keys == set i | 0 <= i < |columns| :: columns[i]
    decreases |columns|
  {
    if |columns| > 0 {
      var n := |columns| - 1;
      MapRowKeys(columns[..n], values[..n]);
      assert forall i :: 0 <= i < n ==> columns[..n][i] == columns[i];
      var keys := set i | 0 <= i < |columns| :: columns[i];
      var pre := set i | 0 <= i < n :: columns[..n][i];
      assert keys == pre + {columns[n]} by {
        forall k | k in keys ensures k in pre + {columns[n]} {
          var i :| 0 <= i < |columns| && columns[i] == k;
          if i < n {
            assert columns[..n][i] == k;
          }
        }
      }
    }
  }

  /** A column name maps to the coerced value of its last occurrence. */
  lemma {:induction false} MapRowLastWins(columns: seq<string>, values: seq<Value>, i: nat)
    requires |columns| == |values| && i < |columns|
    requires forall j :: i < j < |columns| ==> columns[j] != columns[i]
    ensures columns[i] in MapRow(columns, values)
    ensures MapRow(columns, values)[columns[i]] == Util.TypeAssertion(values[i])
    decreases |columns|
  {
    var n := |columns| - 1;
    if i < n {
      assert columns[..n][i] == columns[i] && values[..n][i] == values[i];
      MapRowLastWins(columns[..n], values[..n], i);
    }
  }

  /** No step fails exactly when there is no first error; then every step
      becomes a row, in order. */
  lemma {:induction false} CollectAll(plan: ScanPlan, columns: seq<string>, fs: seq<Fetch>)
    requires RowsFit(columns, fs)
    ensures AllScan(plan, columns, fs) <==> FirstError(plan, columns, fs) == None
    ensures AllScan(plan, columns, fs) ==>
      |Collect(plan, columns, fs)| == |fs| &&
      forall k :: 0 <= k < |fs| ==> Collect(plan, columns, fs)[k] == ScanRow(plan, columns, fs[k]).value
    decreases |fs|
  {
    if |fs| > 0 {
      assert RowsFit(columns, fs[1..]) by {
        forall k | 0 <= k < |fs[1..]| && fs[1..][k].Fetched? ensures |fs[1..][k].values| == |columns| {
          assert fs[1..][k] == fs[k + 1];
        }
      }
      CollectAll(plan, columns, fs[1..]);
      if ScanRow(plan, columns, fs[0]).Success? {
        assert AllScan(plan, columns, fs) <==> AllScan(plan, columns, fs[1..]) by {
          if AllScan(plan, columns, fs[1..]) {
            forall k | 0 <= k < |fs| ensures ScanRow(plan, columns, fs[k]).Success? {
              if k > 0 {
                assert fs[k] == fs[1..][k - 1];
              }
            }
          }
          if AllScan(plan, columns, fs) {
            forall k | 0 <= k < |fs[1..]| ensures ScanRow(plan, columns, fs[1..][k]).Success? {
              assert fs[1..][k] == fs[k + 1];
            }
          }
        }
        if AllScan(plan, columns, fs) {
          forall k | 0 <= k < |fs|
            ensures Collect(plan, columns, fs)[k] == ScanRow(plan, columns, fs[k]).value
          {
            if k > 0 {
              assert fs[k] == fs[1..][k - 1];
            }
          }
        }
      } else {
        assert !AllScan(plan, columns, fs);
      }
    }
  }

  /** The first step that fails to scan ends the iteration: the rows before
      it are kept and its error is the result. */
  lemma {:induction false} CollectStops(plan: ScanPlan, columns: seq<string>, fs: seq<Fetch>, k: nat)
    requires RowsFit(columns, fs)
    requires k < |fs| && ScanRow(plan, columns, fs[k]).Failure?
    requires forall j :: 0 <= j < k ==> ScanRow(plan, columns, fs[j]).Success?
    ensures |Collect(plan, columns, fs)| == k
    ensures forall j :: 0 <= j < k ==> Collect(plan, columns, fs)[j] == ScanRow(plan, columns, fs[j]).value
    ensures FirstError(plan, columns, fs) == Some(ScanRow(plan, columns, fs[k]).error)
    decreases k
  {
    if k > 0 {
      assert RowsFit(columns, fs[1..]) by {
        forall j | 0 <= j < |fs[1..]| && fs[1..][j].Fetched? ensures |fs[1..][j].values| == |columns| {
          assert fs[1..][j] == fs[j + 1];
        }
      }
      forall j | 0 <= j < k - 1 ensures ScanRow(plan, columns, fs[1..][j]).Success? {
        assert fs[1..][j] == fs[j + 1];
      }
      assert fs[1..][k - 1] == fs[k];
      CollectStops(plan, columns, fs[1..], k - 1);
      forall j | 0 <= j < k
        ensures Collect(plan, columns, fs)[j] == ScanRow(plan, columns, fs[j]).value
      {
        if j > 0 {
          assert fs[j] == fs[1..][j - 1];
        }
      }
    }
  }

  /** `Row` changes the destination only when it returns no error. */
  lemma RowFailureLeavesDestination(shape: Kind, query: Result<Cursor, string>, prior: Datum)
    requires query.Success? ==> WellFormed(query.value)
    ensures RowOutcome(shape, query, prior).1.Some? ==> RowOutcome(shape, query, prior).0 == prior
    ensures RowOutcome(shape, query, prior).1.None? && RowOutcome(shape, query, prior).0 != prior ==>
      query.Success? && |query.value.fetches| > 0
  {
  }

  /** `Rows` only appends to the slice; when it reports no error it has
      appended one row per step of the cursor. */
  lemma RowsAppends(shape: Kind, query: Result<Cursor, string>, prior: seq<Datum>)
    requires query.Success? ==> WellFormed(query.value)
    ensures |RowsOutcome(shape, query, prior).0| >= |prior|
    ensures RowsOutcome(shape, query, prior).0[..|prior|] == prior
    ensures RowsOutcome(shape, query, prior).1.None? ==>
      query.Success? && |RowsOutcome(shape, query, prior).0| == |prior| + |query.value.fetches|
  {
    var r := RowsOutcome(shape, query, prior).0;
    if query.Success? {
      var cur := query.value;
      match PlanFor(Util.Messages, shape, |cur.columns|, true)
      case Failure(_) =>
      case Success(plan) =>
        CollectAll(plan, cur.columns, cur.fetches);
        assert r == prior + Collect(plan, cur.columns, cur.fetches);
        assert r[..|prior|] == prior;
    }
  }

  /** `Row` into a `*T` reads what `Rows` into a `*[]T` reads first: the same
      plan, and the first row or the first row's error. */
  lemma RowIsFirstOfRows(t: Kind, query: Result<Cursor, string>, oldRow: Datum, oldItems: seq<Datum>)
    requires query.Success? ==> WellFormed(query.value)
    ensures query.Success? ==>
      PlanFor(Util.Messages, Ptr(t), |query.value.columns|, false) ==
      PlanFor(Util.Messages, Ptr(Slice(t)), |query.value.columns|, true)
    ensures query.Success? && |query.value.fetches| > 0 && RowOutcome(Ptr(t), query, oldRow).1.None? ==>
      |RowsOutcome(Ptr(Slice(t)), query, oldItems).0| > |oldItems| &&
      RowsOutcome(Ptr(Slice(t)), query, oldItems).0[|oldItems|] == RowOutcome(Ptr(t), query, oldRow).0
    ensures query.Success? && |query.value.fetches| > 0 && RowOutcome(Ptr(t), query, oldRow).1.Some? ==>
      RowsOutcome(Ptr(Slice(t)), query, oldItems) == (oldItems, RowOutcome(Ptr(t), query, oldRow).1)
  {
    if query.Success? && |query.value.fetches| > 0 {
      var cur := query.value;
      match PlanFor(Util.Messages, Ptr(t), |cur.columns|, false)
      case Failure(_) =>
      case Success(plan) =>
        match ScanRow(plan, cur.columns, cur.fetches[0])
        case Failure(_) =>
          CollectStops(plan, cur.columns, cur.fetches, 0);
          assert oldItems + [] == oldItems;
        case Success(d) =>
          assert Collect(plan, cur.columns, cur.fetches)[0] == d;
    }
  }

  /** A struct with an embedded field cannot be scanned into: every row
      fails with the nil-target error. */
  lemma EmbeddedFieldRejects(shape: Kind, columns: seq<string>, isRows: bool, f: Fetch, i: nat)
    requires PlanFor(Util.Messages, shape, |columns|, isRows).Success?
    requires PlanFor(Util.Messages, shape, |columns|, isRows).value.kind == StructKind
    requires i < |columns| && Target(shape, isRows).fields[i].anonymous
    requires f.Fetched? && |f.values| == |columns|
    ensures ScanRow(PlanFor(Util.Messages, shape, |columns|, isRows).value, columns, f) == Failure(NilDestination)
  {
    var plan := PlanFor(Util.Messages, shape, |columns|, isRows).value;
    assert plan.slots[i] == Unset;
  }
}
