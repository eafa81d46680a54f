/** db.go: the statement record and table descriptor the query builder
    works on, the scan-plan builder `scanVariable`, the value coercion
    `typeAssertion` of this revision and `TableFields`. */
module Db {
  import opened Wrappers
  import opened Driver
  import opened Reflection

  newtype uint64 = x: int | 0 <= x < 0x1_0000_0000_0000_0000

  /** Database configuration: driver type, data source name, profiling flag. */
  datatype Config = Config(dbType: string, dsn: string, profiling: bool)

  /** The clause fragments of a statement under construction and its bound
      arguments. */
  datatype Sql = Sql(
    select: string,
    from: string,
    join: string,
    where: string,
    order: string,
    group: string,
    having: string,
    offset: uint64,
    rows: uint64,
    forUpdate: string,
    args: seq<Value>)

  /** A table: its name, its primary key and its other columns. */
  datatype Table = Table(name: string, primary: string, fields: seq<string>)

  /** The error texts of this revision's `scanVariable`. */
  const Messages := ScanMessages(
    "dataPtr is not a pointer",
    "dataPtr is not point a slice",
    "columnsLen is not equal elemNumField",
    "dataPtr is not point struct, map or slice")

  /** Builds the scan targets for a destination of type `dataPtr` and
      `columnsLen` result columns. */
  method ScanVariable(dataPtr: Kind, columnsLen: nat, isRows: bool) returns (r: Result<ScanPlan, string>)
    ensures r == PlanFor(Messages, dataPtr, columnsLen, isRows)
  {
    if !dataPtr.Ptr? {
      return Failure(Messages.notPointer);
    }
    if isRows && !dataPtr.elem.Slice? {
      return Failure(Messages.notSlice);
    }
    var scanArgs := new Slot[columnsLen](_ => Unset);
    var elemTyp := if isRows then dataPtr.elem.elem else dataPtr.elem;
    if elemTyp.Struct? {
      var elemNumField := |elemTyp.fields|;
      if columnsLen != elemNumField {
        return Failure(Messages.countMismatch);
      }
      for i := 0 to elemNumField
        invariant forall j :: 0 <= j < i ==> scanArgs[j] == StructSlots(elemTyp.fields)[j]
        invariant forall j :: i <= j < columnsLen ==> scanArgs[j] == Unset
      {
        if !elemTyp.fields[i].anonymous {
          scanArgs[i] := FieldSlot(i);
        }
      }
      assert scanArgs[..] == StructSlots(elemTyp.fields);
      return Success(ScanPlan(StructKind, scanArgs[..]));
    } else if elemTyp.Map? || elemTyp.Slice? {
      for i := 0 to columnsLen
        invariant forall j :: 0 <= j < i ==> scanArgs[j] == CellSlot(j)
      {
        scanArgs[i] := CellSlot(i);
      }
      assert scanArgs[..] == CellSlots(columnsLen);
      return Success(ScanPlan(if elemTyp.Map? then MapKind else SliceKind, scanArgs[..]));
    } else {
      return Failure(Messages.unsupported);
    }
  }

  /** Coerces a driver value: `bool`, `int64`, `float64` and `string` pass
      through, `[]byte` becomes the string of the same bytes, and anything
      else, nil included, becomes the empty string. */
  function TypeAssertion(v: Value): (r: Value)
    ensures r.Bool? || r.Int64? || r.Float64? || r.Text?
    ensures r == v <==> v.Bool? || v.Int64? || v.Float64? || v.Text?
    ensures r != v ==> r == Text(if v.Bytes? then v.data else [])
  {
    match v
    case Bool(_) => v
    case Int64(_) => v
    case Float64(_) => v
    case Text(_) => v
    case Bytes(b) => Text(b)
    case _ => Text([])
  }

  /** Coercing twice is coercing once. */
  lemma TypeAssertionIdempotent(v: Value)
    ensures TypeAssertion(TypeAssertion(v)) == TypeAssertion(v)
  {
  }

  /** Derives the primary key and the other column names from a struct's
      field descriptors. */
  method TableFields(entity: seq<Field>) returns (primary: string, fields: seq<string>)
    ensures primary == PrimaryOf(entity) && fields == ColumnsOf(entity)
  {
    var n := |entity|;
    primary := "";
    fields := [];
    for i := 0 to n
      invariant primary == PrimaryOf(entity[..i])
      invariant fields == ColumnsOf(entity[..i])
    {
      var field := entity[i];
      var name;
      if field.json != "" {
        name := field.json;
      } else {
        name := field.name;
      }
      assert entity[..i + 1][..i] == entity[..i];
      if field.pk == "true" {
        primary := name;
      } else {
        fields := fields + [name];
      }
    }
    assert entity[..n] == entity;
  }

  /** The two structs of the descriptor test: untagged, and tagged with
      `json` names; `RegionId` is the primary key of both. */
  lemma TableFieldsExamples()
    ensures var region := [Field("RegionId", "", "true", false), Field("ParentRegionId", "", "", false), Field("Title", "", "", false)];
      PrimaryOf(region) == "RegionId" && ColumnsOf(region) == ["ParentRegionId", "Title"]
    ensures var tagged := [Field("RegionId", "region_id", "true", false), Field("ParentRegionId", "parent_region_id", "", false), Field("Title", "title", "", false)];
      PrimaryOf(tagged) == "region_id" && ColumnsOf(tagged) == ["parent_region_id", "title"]
  {
    var region := [Field("RegionId", "", "true", false), Field("ParentRegionId", "", "", false), Field("Title", "", "", false)];
    assert region[..2][..1] == region[..1] && region[..2] == region[..|region| - 1] && region[..1][..0] == [];
    assert ColumnsOf(region[..1]) == [];
    var tagged := [Field("RegionId", "region_id", "true", false), Field("ParentRegionId", "parent_region_id", "", false), Field("Title", "title", "", false)];
    assert tagged[..2][..1] == tagged[..1] && tagged[..2] == tagged[..|tagged| - 1] && tagged[..1][..0] == [];
    assert ColumnsOf(tagged[..1]) == [];
  }

  /** The scan-plan test: a pointer to a slice of the three-field region
      struct, three columns, rows mode, gives a struct plan addressing every
      field. */
  lemma ScanVariableExample()
    ensures var region := [Field("RegionId", "", "true", false),
                           Field("ParentRegionId", "", "", false), Field("Title", "", "", false)];
      PlanFor(Messages, Ptr(Slice(Struct(region))), 3, true) ==
      Success(ScanPlan(StructKind, [FieldSlot(0), FieldSlot(1), FieldSlot(2)]))
  {
    var region := [Field("RegionId", "", "true", false),
                   Field("ParentRegionId", "", "", false), Field("Title", "", "", false)];
    assert StructSlots(region) == [FieldSlot(0), FieldSlot(1), FieldSlot(2)];
  }
}
