/** Writing and reading records cell by cell, as the sender and the receiver of a record do. */
module Records {
  import opened Common
  import opened Parcels

  /** Behind `base`, the parcel holds the first k cells of a record. */
  ghost predicate Written(data: seq<Byte>, base: seq<Byte>, cells: seq<Cell>, k: nat)
  {
    k <= |cells| && data == base + PutAll(cells[..k])
  }

  lemma NothingWritten(base: seq<Byte>, cells: seq<Cell>)
    ensures Written(base, base, cells, 0)
  {
  }

  lemma AllWritten(data: seq<Byte>, base: seq<Byte>, cells: seq<Cell>)
    requires Written(data, base, cells, |cells|)
    ensures data == base + PutAll(cells)
  {
    assert cells[..|cells|] == cells;
  }

  method WriteCell(parcel: MessageParcel, c: Cell, ghost base: seq<Byte>, ghost cells: seq<Cell>, ghost k: nat)
    requires k < |cells| && c == cells[k] && Written(parcel.data, base, cells, k)
    modifies parcel
    ensures Written(parcel.data, base, cells, k + 1)
  {
    hide Put, PutAll;
    PutAllAppend(cells[..k], c);
    assert cells[..k] + [c] == cells[..k + 1];
    parcel.Write(c);
    assert (base + PutAll(cells[..k])) + Put(c) == base + (PutAll(cells[..k]) + Put(c));
  }

  /** Of all fields, these cells were read so far; put before what the other fields yield, they are what all yield. */
  ghost predicate SoFar(fields: seq<Field>, start: seq<Byte>, got: seq<Cell>, rest: seq<Byte>)
  {
    && |got| <= |fields| && (forall i :: 0 <= i < |got| ==> TypeOf(got[i]) == fields[i].type_)
    && match ReadAll(fields[|got|..], rest)
       case Missing => ReadAll(fields, start).Missing?
       case Taken(cells, rest') => ReadAll(fields, start) == Taken(got + cells, rest')
  }

  lemma NothingRead(fields: seq<Field>, start: seq<Byte>)
    ensures SoFar(fields, start, [], start)
  {
    hide ReadAll;
    assert fields[0..] == fields;
    match ReadAll(fields, start)
    case Missing =>
    case Taken(cells, rest) => assert [] + cells == cells;
  }

  lemma AllRead(fields: seq<Field>, start: seq<Byte>, got: seq<Cell>, rest: seq<Byte>)
    requires SoFar(fields, start, got, rest) && |got| == |fields|
    ensures Fits(got, fields) && ReadAll(fields, start) == Taken(got, rest)
  {
    assert fields[|got|..] == [];
    assert got + [] == got;
  }

  lemma OneRead(fields: seq<Field>, start: seq<Byte>, got: seq<Cell>, rest: seq<Byte>)
    requires SoFar(fields, start, got, rest) && |got| < |fields|
    ensures match ReadField(fields[|got|], rest)
            case Missing => ReadAll(fields, start).Missing?
            case Taken(c, rest') => SoFar(fields, start, got + [c], rest')
  {
    hide ReadField, ReadAll;
    var left := fields[|got|..];
    assert left[1..] == fields[|got| + 1..];
    Unfold(left, rest);
    match ReadField(left[0], rest)
    case Missing =>
    case Taken(c, rest') =>
      match ReadAll(left[1..], rest')
      case Missing =>
      case Taken(cells, rest'') => assert got + ([c] + cells) == (got + [c]) + cells;
  }

  lemma Unfold(fields: seq<Field>, s: seq<Byte>)
    requires fields != []
    ensures ReadAll(fields, s) ==
      match ReadField(fields[0], s)
      case Missing => Missing
      case Taken(c, rest) =>
        match ReadAll(fields[1..], rest)
        case Missing => Missing
        case Taken(cells, rest') => Taken([c] + cells, rest')
  {
    hide ReadField;
  }

  ghost predicate Extends(got': seq<Cell>, got: seq<Cell>, c: Cell)
  {
    |got'| == |got| + 1 && got'[|got|] == c && forall i :: 0 <= i < |got| ==> got'[i] == got[i]
  }

  method ReadCell(data: MessageParcel, f: Field, ghost fields: seq<Field>, ghost start: seq<Byte>, ghost got: seq<Cell>)
    returns (c: Option<Cell>, ghost got': seq<Cell>)
    requires |got| < |fields| && f == fields[|got|] && SoFar(fields, start, got, data.data)
    modifies data
    ensures match c
            case None => f.strict && ReadAll(fields, start).Missing?
            case Some(v) =>
              TypeOf(v) == f.type_ && SoFar(fields, start, got', data.data) && Extends(got', got, v)
  {
    hide SoFar, ReadAll;
    OneRead(fields, start, got, data.data);
    c := data.Read(f);
    got' := if c.Some? then got + [c.value] else got;
  }

  // ----- reads that report failure -----

  method ReadInt32(data: MessageParcel, ghost fields: seq<Field>, ghost start: seq<Byte>, ghost got: seq<Cell>)
    returns (v: Option<Int32>, ghost got': seq<Cell>)
    requires |got| < |fields| && fields[|got|] == Field(Int32Type, true) && SoFar(fields, start, got, data.data)
    modifies data
    ensures v.None? ==> ReadAll(fields, start).Missing?
    ensures v.Some? ==> SoFar(fields, start, got', data.data) && Extends(got', got, Int32Cell(v.value))
  {
    var c;
    c, got' := ReadCell(data, Field(Int32Type, true), fields, start, got);
    v := if c.Some? then Some(c.value.i) else None;
  }

  method ReadFloat(data: MessageParcel, ghost fields: seq<Field>, ghost start: seq<Byte>, ghost got: seq<Cell>)
    returns (v: Option<UInt32>, ghost got': seq<Cell>)
    requires |got| < |fields| && fields[|got|] == Field(FloatType, true) && SoFar(fields, start, got, data.data)
    modifies data
    ensures v.None? ==> ReadAll(fields, start).Missing?
    ensures v.Some? ==> SoFar(fields, start, got', data.data) && Extends(got', got, FloatCell(v.value))
  {
    var c;
    c, got' := ReadCell(data, Field(FloatType, true), fields, start, got);
    v := if c.Some? then Some(c.value.bits) else None;
  }

  method ReadBool(data: MessageParcel, ghost fields: seq<Field>, ghost start: seq<Byte>, ghost got: seq<Cell>)
    returns (v: Option<bool>, ghost got': seq<Cell>)
    requires |got| < |fields| && fields[|got|] == Field(BoolType, true) && SoFar(fields, start, got, data.data)
    modifies data
    ensures v.None? ==> ReadAll(fields, start).Missing?
    ensures v.Some? ==> SoFar(fields, start, got', data.data) && Extends(got', got, BoolCell(v.value))
  {
    var c;
    c, got' := ReadCell(data, Field(BoolType, true), fields, start, got);
    v := if c.Some? then Some(c.value.b) else None;
  }

  method ReadBuffer(data: MessageParcel, ghost fields: seq<Field>, ghost start: seq<Byte>, ghost got: seq<Cell>)
    returns (v: Option<Buffer>, ghost got': seq<Cell>)
    requires |got| < |fields| && fields[|got|] == Field(BufferType, true) && SoFar(fields, start, got, data.data)
    modifies data
    ensures v.None? ==> ReadAll(fields, start).Missing?
    ensures v.Some? ==> SoFar(fields, start, got', data.data) && Extends(got', got, BufferCell(v.value))
  {
    var c;
    c, got' := ReadCell(data, Field(BufferType, true), fields, start, got);
    v := if c.Some? then Some(c.value.buffer) else None;
  }

  method ReadInts(data: MessageParcel, ghost fields: seq<Field>, ghost start: seq<Byte>, ghost got: seq<Cell>)
    returns (v: Option<Ints>, ghost got': seq<Cell>)
    requires |got| < |fields| && fields[|got|] == Field(IntsType, true) && SoFar(fields, start, got, data.data)
    modifies data
    ensures v.None? ==> ReadAll(fields, start).Missing?
    ensures v.Some? ==> SoFar(fields, start, got', data.data) && Extends(got', got, IntsCell(v.value))
  {
    var c;
    c, got' := ReadCell(data, Field(IntsType, true), fields, start, got);
    v := if c.Some? then Some(c.value.ints) else None;
  }

  // ----- reads that yield a default instead -----

  method GetInt32(data: MessageParcel, ghost fields: seq<Field>, ghost start: seq<Byte>, ghost got: seq<Cell>)
    returns (v: Int32, ghost got': seq<Cell>)
    requires |got| < |fields| && fields[|got|] == Field(Int32Type, false) && SoFar(fields, start, got, data.data)
    modifies data
    ensures SoFar(fields, start, got', data.data) && Extends(got', got, Int32Cell(v))
  {
    var c;
    c, got' := ReadCell(data, Field(Int32Type, false), fields, start, got);
    v := c.value.i;
  }

  method GetInt64(data: MessageParcel, ghost fields: seq<Field>, ghost start: seq<Byte>, ghost got: seq<Cell>)
    returns (v: Int64, ghost got': seq<Cell>)
    requires |got| < |fields| && fields[|got|] == Field(Int64Type, false) && SoFar(fields, start, got, data.data)
    modifies data
    ensures SoFar(fields, start, got', data.data) && Extends(got', got, Int64Cell(v))
  {
    var c;
    c, got' := ReadCell(data, Field(Int64Type, false), fields, start, got);
    v := c.value.l;
  }

  method GetBool(data: MessageParcel, ghost fields: seq<Field>, ghost start: seq<Byte>, ghost got: seq<Cell>)
    returns (v: bool, ghost got': seq<Cell>)
    requires |got| < |fields| && fields[|got|] == Field(BoolType, false) && SoFar(fields, start, got, data.data)
    modifies data
    ensures SoFar(fields, start, got', data.data) && Extends(got', got, BoolCell(v))
  {
    var c;
    c, got' := ReadCell(data, Field(BoolType, false), fields, start, got);
    v := c.value.b;
  }

  method GetText(data: MessageParcel, ghost fields: seq<Field>, ghost start: seq<Byte>, ghost got: seq<Cell>)
    returns (v: Text, ghost got': seq<Cell>)
    requires |got| < |fields| && fields[|got|] == Field(TextType, false) && SoFar(fields, start, got, data.data)
    modifies data
    ensures SoFar(fields, start, got', data.data) && Extends(got', got, TextCell(v))
  {
    var c;
    c, got' := ReadCell(data, Field(TextType, false), fields, start, got);
    v := c.value.text;
  }

  method GetRect(data: MessageParcel, ghost fields: seq<Field>, ghost start: seq<Byte>, ghost got: seq<Cell>)
    returns (v: Option<Rect>, ghost got': seq<Cell>)
    requires |got| < |fields| && fields[|got|] == Field(RectType, false) && SoFar(fields, start, got, data.data)
    modifies data
    ensures SoFar(fields, start, got', data.data) && Extends(got', got, RectCell(v))
  {
    var c;
    c, got' := ReadCell(data, Field(RectType, false), fields, start, got);
    v := c.value.rect;
  }

  method GetObject(data: MessageParcel, ghost fields: seq<Field>, ghost start: seq<Byte>, ghost got: seq<Cell>)
    returns (v: Option<Buffer>, ghost got': seq<Cell>)
    requires |got| < |fields| && fields[|got|] == Field(ObjectType, false) && SoFar(fields, start, got, data.data)
    modifies data
    ensures SoFar(fields, start, got', data.data) && Extends(got', got, ObjectCell(v))
  {
    var c;
    c, got' := ReadCell(data, Field(ObjectType, false), fields, start, got);
    v := c.value.body;
  }
}
