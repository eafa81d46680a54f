/** What the core learns from Go's `reflect` package, as explicit data: the
    descriptor of a struct field (its name and its `json` and `pk` tags), the
    shape of a destination handed to `Row`/`Rows`, and the scan plan built
    from that shape. Also the table descriptor rule that `TableFields` and
    `tableFields` both implement. */
module Reflection {
  import opened Wrappers
  import opened Driver

  /** A struct field: its Go name, the values of its `json` and `pk` tags
      (`""` when the tag is absent) and whether it is embedded. */
  datatype Field = Field(name: string, json: string, pk: string, anonymous: bool)

  /** A field of a struct value together with the value it holds. */
  datatype Member = Member(field: Field, value: Value)

  /** The type of a destination, as far as the scan code inspects it. `Map`
      stands for `map[string]interface{}`; `Basic` for any other kind. */
  datatype Kind =
    | Ptr(elem: Kind)
    | Slice(elem: Kind)
    | Map
    | Struct(fields: seq<Field>)
    | Basic(name: string)

  /** The three element kinds rows can be materialized as. */
  datatype ElemKind = StructKind | MapKind | SliceKind

  /** One scan target: left nil, the address of a struct field, or the
      address of a cell of the temporary row. */
  datatype Slot = Unset | FieldSlot(field: nat) | CellSlot(cell: nat)

  /** What `scanVariable`/`scanVariables` return on success: the element
      kind and one scan target per result column. */
  datatype ScanPlan = ScanPlan(kind: ElemKind, slots: seq<Slot>)

  /** The error texts of one revision of the scan-plan builder. */
  datatype ScanMessages = ScanMessages(notPointer: string, notSlice: string, countMismatch: string, unsupported: string)

  /** The type each row is scanned into: the pointee, or in rows mode the
      element type of the pointed-to slice. */
  function Target(shape: Kind, isRows: bool): Kind
    requires shape.Ptr? && (isRows ==> shape.elem.Slice?)
  {
    if isRows then shape.elem.elem else shape.elem
  }

  /** Struct scan targets: the address of every non-embedded field. */
  function StructSlots(fields: seq<Field>): (r: seq<Slot>)
    ensures |r| == |fields|
    ensures forall i :: 0 <= i < |fields| ==> (r[i] == Unset <==> fields[i].anonymous) && r[i] in {Unset, FieldSlot(i)}
  {
    seq(|fields|, i requires 0 <= i < |fields| => if fields[i].anonymous then Unset else FieldSlot(i))
  }

  /** Map and slice scan targets: the address of every cell of the row. */
  function CellSlots(n: nat): (r: seq<Slot>)
    ensures |r| == n && Unset !in r
    ensures forall i :: 0 <= i < n ==> r[i] == CellSlot(i)
  {
    seq(n, i requires 0 <= i < n => CellSlot(i))
  }

  /** The scan plan for a destination of type `shape` and `columnsLen`
      result columns, or the error its revision reports. */
  function PlanFor(msgs: ScanMessages, shape: Kind, columnsLen: nat, isRows: bool): (r: Result<ScanPlan, string>)
    ensures r.Success? ==> |r.value.slots| == columnsLen
    ensures r.Failure? ==> r.error in {msgs.notPointer, msgs.notSlice, msgs.countMismatch, msgs.unsupported}
  {
    if !shape.Ptr? then Failure(msgs.notPointer)
    else if isRows && !shape.elem.Slice? then Failure(msgs.notSlice)
    else
      var target := Target(shape, isRows);
      if target.Struct? then
        if columnsLen != |target.fields| then Failure(msgs.countMismatch)
        else Success(ScanPlan(StructKind, StructSlots(target.fields)))
      else if target.Map? then Success(ScanPlan(MapKind, CellSlots(columnsLen)))
      else if target.Slice? then Success(ScanPlan(SliceKind, CellSlots(columnsLen)))
      else Failure(msgs.unsupported)
  }

  /** A plan exists exactly for a pointer (to a slice, in rows mode) whose row
      type is a map, a slice, or a struct with one field per column; it has
      one slot per column, and slot `i` is nil or addresses field or cell `i`. */
  lemma PlanForShape(msgs: ScanMessages, shape: Kind, columnsLen: nat, isRows: bool)
    ensures PlanFor(msgs, shape, columnsLen, isRows).Success? <==>
      shape.Ptr? && (isRows ==> shape.elem.Slice?) &&
      (var t := Target(shape, isRows); t.Map? || t.Slice? || (t.Struct? && |t.fields| == columnsLen))
    ensures PlanFor(msgs, shape, columnsLen, isRows).Success? ==>
      var p := PlanFor(msgs, shape, columnsLen, isRows).value;
      |p.slots| == columnsLen &&
      forall i :: 0 <= i < columnsLen ==> p.slots[i] in {Unset, FieldSlot(i), CellSlot(i)}
  {
  }

  /** The shape errors, checked in the order the code checks them. */
  lemma PlanForErrors(msgs: ScanMessages, shape: Kind, columnsLen: nat, isRows: bool)
    ensures !shape.Ptr? ==> PlanFor(msgs, shape, columnsLen, isRows) == Failure(msgs.notPointer)
    ensures shape.Ptr? && isRows && !shape.elem.Slice? ==>
      PlanFor(msgs, shape, columnsLen, isRows) == Failure(msgs.notSlice)
    ensures shape.Ptr? && (isRows ==> shape.elem.Slice?) ==>
      var t := Target(shape, isRows);
      (t.Struct? && |t.fields| != columnsLen ==> PlanFor(msgs, shape, columnsLen, isRows) == Failure(msgs.countMismatch)) &&
      (t.Basic? || t.Ptr? ==> PlanFor(msgs, shape, columnsLen, isRows) == Failure(msgs.unsupported))
  {
  }

  /** A struct plan leaves exactly the embedded fields' slots nil; a map or
      slice plan sets every slot. */
  lemma PlanForSlots(msgs: ScanMessages, shape: Kind, columnsLen: nat, isRows: bool)
    requires PlanFor(msgs, shape, columnsLen, isRows).Success?
    ensures var p := PlanFor(msgs, shape, columnsLen, isRows).value;
      (p.kind == StructKind ==> var t := Target(shape, isRows);
        forall i :: 0 <= i < columnsLen ==> (p.slots[i] == Unset <==> t.fields[i].anonymous)) &&
      (p.kind != StructKind ==> forall i :: 0 <= i < columnsLen ==> p.slots[i] == CellSlot(i))
  {
  }

  // ---- Table descriptor -------------------------------------------------

  /** A field's column name: its `json` tag when set, else its Go name. */
  function ColumnName(f: Field): (r: string)
    ensures r == f.json || r == f.name
    ensures f.json != "" ==> r == f.json
  {
    if f.json != "" then f.json else f.name
  }

  /** A field tagged `pk:"true"` is the primary key. */
  predicate IsPrimary(f: Field) {
    f.pk == "true"
  }

  /** The primary key's column name: that of the last primary field, or `""`. */
  function PrimaryOf(fs: seq<Field>): (r: string)
    ensures (forall i :: 0 <= i < |fs| ==> !IsPrimary(fs[i])) ==> r == ""
    decreases |fs|
  {
    if |fs| == 0 then ""
    else if IsPrimary(fs[|fs| - 1]) then ColumnName(fs[|fs| - 1])
    else PrimaryOf(fs[..|fs| - 1])
  }

  /** The column names of the non-primary fields, in declaration order. */
  function ColumnsOf(fs: seq<Field>): (r: seq<string>)
    ensures |r| <= |fs|
    ensures |fs| > 0 && !IsPrimary(fs[|fs| - 1]) ==> |r| > 0 && r[|r| - 1] == ColumnName(fs[|fs| - 1])
    decreases |fs|
  {
    if |fs| == 0 then []
    else ColumnsOf(fs[..|fs| - 1]) + (if IsPrimary(fs[|fs| - 1]) then [] else [ColumnName(fs[|fs| - 1])])
  }

  /** Number of fields tagged as primary key. */
  function PrimaryCount(fs: seq<Field>): (r: nat)
    ensures r <= |fs|
    decreases |fs|
  {
    if |fs| == 0 then 0
    else PrimaryCount(fs[..|fs| - 1]) + (if IsPrimary(fs[|fs| - 1]) then 1 else 0)
  }

  /** Every non-primary field contributes one column. */
  lemma {:induction false} ColumnsCount(fs: seq<Field>)
    ensures |ColumnsOf(fs)| == |fs| - PrimaryCount(fs)
    decreases |fs|
  {
    if |fs| > 0 {
      ColumnsCount(fs[..|fs| - 1]);
    }
  }

  /** A non-primary field's column sits after the columns of the non-primary
      fields declared before it: declaration order is kept. */
  lemma {:induction false} ColumnAt(fs: seq<Field>, i: nat)
    requires i < |fs| && !IsPrimary(fs[i])
    ensures i - PrimaryCount(fs[..i]) < |ColumnsOf(fs)|
    ensures ColumnsOf(fs)[i - PrimaryCount(fs[..i])] == ColumnName(fs[i])
    decreases |fs|
  {
    var pre := fs[..|fs| - 1];
    ColumnsCount(pre);
    if i == |fs| - 1 {
      assert fs[..i] == pre;
    } else {
      assert fs[..i] == pre[..i];
      ColumnAt(pre, i);
    }
  }

  /** When several fields are tagged primary, the last one wins. */
  lemma {:induction false} PrimaryLastWins(fs: seq<Field>, j: nat)
    requires j < |fs| && IsPrimary(fs[j])
    requires forall k :: j < k < |fs| ==> !IsPrimary(fs[k])
    ensures PrimaryOf(fs) == ColumnName(fs[j])
    decreases |fs|
  {
    if j < |fs| - 1 {
      PrimaryLastWins(fs[..|fs| - 1], j);
    }
  }

  /** With no primary field the primary key is empty and every field is a
      column. */
  lemma {:induction false} NoPrimary(fs: seq<Field>)
    requires forall k :: 0 <= k < |fs| ==> !IsPrimary(fs[k])
    ensures PrimaryOf(fs) == ""
    ensures ColumnsOf(fs) == seq(|fs|, i requires 0 <= i < |fs| => ColumnName(fs[i]))
    decreases |fs|
  {
    if |fs| > 0 {
      NoPrimary(fs[..|fs| - 1]);
    }
  }
}
