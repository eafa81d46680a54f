/** util.go: the scan-plan builder `scanVariables` that server.go's `Row`
    and `Rows` use, the value coercion `typeAssertion` of this revision,
    `tableAlias` and `tableFields`. */
module Util {
  import opened Wrappers
  import opened Driver
  import opened Reflection

  /** The error texts of this revision's `scanVariables`. */
  const Messages := ScanMessages(
    "ptr is not a pointer",
    "ptr is not point a slice",
    "columnsLen is not equal elemTyp.NumField()",
    "ptr is not a point struct, map or slice")

  /** Builds the scan targets for a destination of type `ptr` and
      `columnsLen` result columns. */
  method ScanVariables(ptr: Kind, columnsLen: nat, isRows: bool) returns (r: Result<ScanPlan, string>)
    ensures r == PlanFor(Messages, ptr, columnsLen, isRows)
  {
    if !ptr.Ptr? {
      return Failure(Messages.notPointer);
    }
    var elemTyp := ptr.elem;
    if isRows {
      if !elemTyp.Slice? {
        return Failure(Messages.notSlice);
      }
      elemTyp := elemTyp.elem;
    }
    var scan := new Slot[columnsLen](_ => Unset);
    if elemTyp.Struct? {
      if columnsLen != |elemTyp.fields| {
        return Failure(Messages.countMismatch);
      }
      for i := 0 to columnsLen
        invariant forall j :: 0 <= j < i ==> scan[j] == StructSlots(elemTyp.fields)[j]
        invariant forall j :: i <= j < columnsLen ==> scan[j] == Unset
      {
        var f := elemTyp.fields[i];
        if !f.anonymous {
          scan[i] := FieldSlot(i);
        }
      }
      assert scan[..] == StructSlots(elemTyp.fields);
      return Success(ScanPlan(StructKind, scan[..]));
    }
    if elemTyp.Map? || elemTyp.Slice? {
      for i := 0 to columnsLen
        invariant forall j :: 0 <= j < i ==> scan[j] == CellSlot(j)
      {
        scan[i] := CellSlot(i);
      }
      assert scan[..] == CellSlots(columnsLen);
      return Success(ScanPlan(if elemTyp.Map? then MapKind else SliceKind, scan[..]));
    }
    return Failure(Messages.unsupported);
  }

  /** Coerces a driver value: `[]byte`, `[]rune`, `bool`, `float64`,
      `int64`, nil and `string` pass through unchanged; any other type
      becomes the empty string. */
  function TypeAssertion(v: Value): (r: Value)
    ensures r == v <==> !v.Other?
    ensures v.Other? ==> r == Text([])
  {
    match v
    case Bytes(_) => v
    case Runes(_) => v
    case Bool(_) => v
    case Float64(_) => v
    case Int64(_) => v
    case Nil => v
    case Text(_) => v
    case Other(_) => Text([])
  }

  /** Coercing twice is coercing once. */
  lemma TypeAssertionIdempotent(v: Value)
    ensures TypeAssertion(TypeAssertion(v)) == TypeAssertion(v)
  {
  }

  /** The optional table alias: the first one given, else none. */
  function TableAlias(alias: seq<string>): (r: string)
    ensures |alias| > 0 ==> r == alias[0]
    ensures |alias| == 0 ==> r == ""
  {
    if |alias| > 0 then alias[0] else ""
  }

  /** Derives the primary key and the other column names from a struct's
      field descriptors. */
  method TableFields(entity: seq<Field>) returns (primary: string, fields: seq<string>)
    ensures primary == PrimaryOf(entity) && fields == ColumnsOf(entity)
  {
    primary := "";
    fields := [];
    var i := 0;
    while i < |entity|
      invariant i <= |entity|
      invariant primary == PrimaryOf(entity[..i])
      invariant fields == ColumnsOf(entity[..i])
    {
      var field := entity[i];
      var name;
      if field.json != "" {
        name := field.json;
      } else {
        name := field.name;
      }
      assert entity[..i + 1][..i] == entity[..i];
      if field.pk == "true" {
        primary := name;
      } else {
        fields := fields + [name];
      }
      i := i + 1;
    }
    assert entity[..i] == entity;
  }
}
