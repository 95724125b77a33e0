/** Parcels as byte strings: typed values, little-endian, each starting on a multiple of four bytes. */
module Parcels {
  import opened Common

  type Byte = n: int | 0 <= n < 0x100
  type Unit = n: int | 0 <= n < 0x1_0000
  type UInt32 = n: int | 0 <= n < 0x1_0000_0000
  type Int32 = n: int | -0x8000_0000 <= n < 0x8000_0000
  type Int64 = n: int | -0x8000_0000_0000_0000 <= n < 0x8000_0000_0000_0000

  const MAX_LENGTH: nat := 0x7fff_ffff

  type Text = s: seq<Unit> | |s| <= MAX_LENGTH
  type Buffer = s: seq<Byte> | |s| <= MAX_LENGTH
  type Ints = s: seq<Int32> | |s| <= MAX_LENGTH

  datatype Rect = Rect(left: Int32, top: Int32, right: Int32, bottom: Int32)

  /** A typed value. `FloatCell` keeps the bit pattern; `ObjectCell` is an object of another library, kept as bytes. */
  datatype Cell =
    | Int32Cell(i: Int32)
    | Int64Cell(l: Int64)
    | FloatCell(bits: UInt32)
    | BoolCell(b: bool)
    | TextCell(text: Text)
    | BufferCell(buffer: Buffer)
    | IntsCell(ints: Ints)
    | RectCell(rect: Option<Rect>)
    | ObjectCell(body: Option<Buffer>)

  datatype Type = Int32Type | Int64Type | FloatType | BoolType | TextType | BufferType | IntsType | RectType | ObjectType

  /** How a value is asked for: a lenient read that fails yields a default value and moves nothing. */
  datatype Field = Field(type_: Type, strict: bool)

  function TypeOf(c: Cell): Type
  {
    match c
    case Int32Cell(_) => Int32Type
    case Int64Cell(_) => Int64Type
    case FloatCell(_) => FloatType
    case BoolCell(_) => BoolType
    case TextCell(_) => TextType
    case BufferCell(_) => BufferType
    case IntsCell(_) => IntsType
    case RectCell(_) => RectType
    case ObjectCell(_) => ObjectType
  }

  function Default(t: Type): (c: Cell)
    ensures TypeOf(c) == t
  {
    match t
    case Int32Type => Int32Cell(0)
    case Int64Type => Int64Cell(0)
    case FloatType => FloatCell(0)
    case BoolType => BoolCell(false)
    case TextType => TextCell([])
    case BufferType => BufferCell([])
    case IntsType => IntsCell([])
    case RectType => RectCell(None)
    case ObjectType => ObjectCell(None)
  }

  // ----- numbers -----

  function Low(n: nat): Byte { n % 0x100 }

  function Put32(n: UInt32): (s: seq<Byte>)
    ensures |s| == 4
  {
    var a: nat := n / 0x100;
    var b: nat := a / 0x100;
    [Low(n), Low(a), Low(b), b / 0x100]
  }

  function Get32(s: seq<Byte>): UInt32
    requires |s| >= 4
  {
    var n0: int, n1: int, n2: int, n3: int := s[0], s[1], s[2], s[3];
    n0 + 0x100 * (n1 + 0x100 * (n2 + 0x100 * n3))
  }

  function Unsigned(i: Int32): UInt32 { if i < 0 then i + 0x1_0000_0000 else i }

  function Signed(n: UInt32): Int32 { if n >= 0x8000_0000 then n - 0x1_0000_0000 else n }

  lemma Get32Put32(n: UInt32, rest: seq<Byte>)
    ensures Get32(Put32(n) + rest) == n && (Put32(n) + rest)[4..] == rest
  {
  }

  /** A result together with the bytes that follow it. */
  datatype Taken<+T> = Missing | Taken(value: T, rest: seq<Byte>)

  function Take32(s: seq<Byte>): Taken<Int32>
  {
    if |s| < 4 then Missing else Taken(Signed(Get32(s)), s[4..])
  }

  lemma Take32Put32(i: Int32, rest: seq<Byte>)
    ensures Take32(Put32(Unsigned(i)) + rest) == Taken(i, rest)
  {
    Get32Put32(Unsigned(i), rest);
  }

  function Put64(l: Int64): (s: seq<Byte>)
    ensures |s| == 8
  {
    var n := if l < 0 then l + 0x1_0000_0000_0000_0000 else l;
    Put32(n % 0x1_0000_0000) + Put32(n / 0x1_0000_0000)
  }

  function Take64(s: seq<Byte>): Taken<Int64>
  {
    if |s| < 8 then Missing else
    var n := Get32(s) + 0x1_0000_0000 * Get32(s[4..]);
    Taken(if n >= 0x8000_0000_0000_0000 then n - 0x1_0000_0000_0000_0000 else n, s[8..])
  }

  lemma Take64Put64(l: Int64, rest: seq<Byte>)
    ensures Take64(Put64(l) + rest) == Taken(l, rest)
  {
    var n := if l < 0 then l + 0x1_0000_0000_0000_0000 else l;
    var low, high := Put32(n % 0x1_0000_0000), Put32(n / 0x1_0000_0000);
    assert Put64(l) + rest == low + (high + rest);
    Get32Put32(n % 0x1_0000_0000, high + rest);
    Get32Put32(n / 0x1_0000_0000, rest);
  }

  // ----- sequences -----

  function Padding(n: nat): (s: seq<Byte>)
    ensures |s| < 4 && (n + |s|) % 4 == 0
  {
    seq((4 - n % 4) % 4, _ => 0)
  }

  function Padded(s: seq<Byte>): (r: seq<Byte>)
    ensures |r| % 4 == 0
  {
    s + Padding(|s|)
  }

  /** A count, then the bytes of what it counts. */
  function Counted(n: UInt32, s: seq<Byte>): (r: seq<Byte>)
    ensures |r| % 4 == 0 && |r| >= 4
  {
    Put32(n) + Padded(s)
  }

  function PutBuffer(b: Buffer): (s: seq<Byte>)
    ensures |s| % 4 == 0 && |s| >= 4
  {
    Counted(|b|, b)
  }

  function TakeBuffer(s: seq<Byte>): Taken<Buffer>
  {
    if |s| < 4 then Missing else
    var n := Signed(Get32(s));
    if n < 0 || |s| - 4 < n + |Padding(n)| then Missing
    else Taken(s[4..4 + n], s[4 + n + |Padding(n)|..])
  }

  lemma TakeBufferPutBuffer(b: Buffer, rest: seq<Byte>)
    ensures TakeBuffer(PutBuffer(b) + rest) == Taken(b, rest)
  {
    hide Put32, Get32;
    var s, pad := PutBuffer(b) + rest, Padding(|b|);
    assert s == Put32(|b|) + (b + pad + rest);
    Get32Put32(|b|, b + pad + rest);
    assert s[4..4 + |b|] == b && s[4 + |b| + |pad|..] == rest;
  }

  /** The units of a text and the zero unit that ends it. */
  function PutUnits(t: seq<Unit>): (s: seq<Byte>)
    ensures |s| == 2 * |t| + 2
  {
    if t == [] then [0, 0] else [Low(t[0]), Low(t[0] / 0x100)] + PutUnits(t[1..])
  }

  function GetUnits(s: seq<Byte>, n: nat): (t: seq<Unit>)
    requires |s| >= 2 * n
    ensures |t| == n
    decreases n
  {
    if n == 0 then [] else
    var low: int, high: int := s[0], s[1];
    [low + 0x100 * high] + GetUnits(s[2..], n - 1)
  }

  lemma AfterTwo(a: Byte, b: Byte, tail: seq<Byte>, rest: seq<Byte>)
    ensures var s := [a, b] + tail + rest; s[0] == a && s[1] == b && s[2..] == tail + rest
  {
  }

  lemma {:induction false} GetUnitsPutUnits(t: seq<Unit>, rest: seq<Byte>)
    ensures GetUnits(PutUnits(t) + rest, |t|) == t
  {
    if t != [] {
      hide Low;
      AfterTwo(Low(t[0]), Low(t[0] / 0x100), PutUnits(t[1..]), rest);
      GetUnitsPutUnits(t[1..], rest);
      LowHigh(t[0]);
      assert [t[0]] + t[1..] == t;
    }
  }

  lemma LowHigh(u: Unit)
    ensures (Low(u) as int) + 0x100 * (Low(u / 0x100) as int) == u
  {
  }

  function PutText(t: Text): (s: seq<Byte>)
    ensures |s| % 4 == 0 && |s| >= 4
  {
    Counted(|t|, PutUnits(t))
  }

  function TakeText(s: seq<Byte>): Taken<Text>
  {
    if |s| < 4 then Missing else
    var n := Signed(Get32(s));
    if n < 0 || |s| - 4 < 2 * n + 2 + |Padding(2 * n + 2)| then Missing
    else Taken(GetUnits(s[4..], n), s[4 + 2 * n + 2 + |Padding(2 * n + 2)|..])
  }

  lemma TakeTextPutText(t: Text, rest: seq<Byte>)
    ensures TakeText(PutText(t) + rest) == Taken(t, rest)
  {
    hide Put32, Get32, PutUnits, GetUnits;
    var s, units, pad := PutText(t) + rest, PutUnits(t), Padding(2 * |t| + 2);
    assert s == Put32(|t|) + (units + pad + rest);
    Get32Put32(|t|, units + pad + rest);
    assert s[4..] == units + (pad + rest);
    GetUnitsPutUnits(t, pad + rest);
    assert s[4 + |units| + |pad|..] == rest;
  }

  function PutAll32(v: seq<Int32>): (s: seq<Byte>)
    ensures |s| == 4 * |v|
  {
    if v == [] then [] else Put32(Unsigned(v[0])) + PutAll32(v[1..])
  }

  function TakeAll32(s: seq<Byte>, n: nat): (t: Taken<seq<Int32>>)
    ensures t.Taken? ==> |t.value| == n
    decreases n
  {
    if n == 0 then Taken([], s) else
    match Take32(s)
    case Missing => Missing
    case Taken(i, rest) =>
      match TakeAll32(rest, n - 1)
      case Missing => Missing
      case Taken(v, rest') => Taken([i] + v, rest')
  }

  lemma {:induction false} TakeAll32PutAll32(v: seq<Int32>, rest: seq<Byte>)
    ensures TakeAll32(PutAll32(v) + rest, |v|) == Taken(v, rest)
  {
    if v == [] {
      assert PutAll32(v) + rest == rest;
    } else {
      assert PutAll32(v) + rest == Put32(Unsigned(v[0])) + (PutAll32(v[1..]) + rest);
      Take32Put32(v[0], PutAll32(v[1..]) + rest);
      TakeAll32PutAll32(v[1..], rest);
      assert [v[0]] + v[1..] == v;
    }
  }

  function PutInts(v: Ints): (s: seq<Byte>)
    ensures |s| % 4 == 0 && |s| >= 4
  {
    Put32(|v|) + PutAll32(v)
  }

  function TakeInts(s: seq<Byte>): Taken<Ints>
  {
    match Take32(s)
    case Missing => Missing
    case Taken(n, rest) => if n < 0 || |rest| < n then Missing else TakeAll32(rest, n)
  }

  lemma TakeIntsPutInts(v: Ints, rest: seq<Byte>)
    ensures TakeInts(PutInts(v) + rest) == Taken(v, rest)
  {
    assert PutInts(v) + rest == Put32(Unsigned(|v|)) + (PutAll32(v) + rest);
    Take32Put32(|v|, PutAll32(v) + rest);
    TakeAll32PutAll32(v, rest);
  }

  // ----- objects, after a marker that tells whether there is one -----

  /** ReadInt32 without a status: zero if there are too few bytes. */
  function Lenient32(s: seq<Byte>): (Int32, seq<Byte>)
  {
    match Take32(s)
    case Missing => (0, s)
    case Taken(i, rest) => (i, rest)
  }

  function PutRect(r: Option<Rect>): (s: seq<Byte>)
    ensures |s| % 4 == 0 && |s| >= 4
  {
    match r
    case None => Put32(0)
    case Some(v) => Put32(1) + PutAll32([v.left, v.top, v.right, v.bottom])
  }

  function TakeRect(s: seq<Byte>): Taken<Option<Rect>>
  {
    match Take32(s)
    case Missing => Missing
    case Taken(marker, r0) =>
      if marker == 0 then Taken(None, r0) else
      var (left, r1) := Lenient32(r0);
      var (top, r2) := Lenient32(r1);
      var (right, r3) := Lenient32(r2);
      var (bottom, r4) := Lenient32(r3);
      Taken(Some(Rect(left, top, right, bottom)), r4)
  }

  lemma TakeRectPutRect(r: Option<Rect>, rest: seq<Byte>)
    ensures TakeRect(PutRect(r) + rest) == Taken(r, rest)
  {
    hide Take32, Put32;
    match r
    case None =>
      Take32Put32(0, rest);
    case Some(v) =>
      var a, b, c, d := Put32(Unsigned(v.left)), Put32(Unsigned(v.top)), Put32(Unsigned(v.right)), Put32(Unsigned(v.bottom));
      PutFour(v);
      assert PutRect(r) + rest == Put32(1) + (a + (b + (c + (d + rest))));
      Take32Put32(1, a + (b + (c + (d + rest))));
      Take32Put32(v.left, b + (c + (d + rest)));
      Take32Put32(v.top, c + (d + rest));
      Take32Put32(v.right, d + rest);
      Take32Put32(v.bottom, rest);
  }

  lemma PutFour(v: Rect)
    ensures PutAll32([v.left, v.top, v.right, v.bottom])
         == Put32(Unsigned(v.left)) + (Put32(Unsigned(v.top)) + (Put32(Unsigned(v.right)) + Put32(Unsigned(v.bottom))))
  {
    hide Put32, Unsigned;
    assert [v.left, v.top, v.right, v.bottom][1..] == [v.top, v.right, v.bottom];
    assert [v.top, v.right, v.bottom][1..] == [v.right, v.bottom];
    assert [v.right, v.bottom][1..] == [v.bottom];
    PutOne(v.bottom);
    assert PutAll32([v.right, v.bottom]) == Put32(Unsigned(v.right)) + Put32(Unsigned(v.bottom));
    assert PutAll32([v.top, v.right, v.bottom]) == Put32(Unsigned(v.top)) + PutAll32([v.right, v.bottom]);
  }

  lemma PutOne(i: Int32)
    ensures PutAll32([i]) == Put32(Unsigned(i))
  {
    hide Put32, Unsigned;
    assert Put32(Unsigned(i)) + [] == Put32(Unsigned(i));
  }

  /** The marker of an object that is there, and the object. */
  function Marked(s: seq<Byte>): (r: seq<Byte>)
    requires |s| % 4 == 0
    ensures |r| % 4 == 0 && |r| >= 4
  {
    Put32(1) + s
  }

  function PutObject(o: Option<Buffer>): (s: seq<Byte>)
    ensures |s| % 4 == 0 && |s| >= 4
  {
    match o
    case None => Put32(0)
    case Some(b) => Marked(PutBuffer(b))
  }

  function TakeObject(s: seq<Byte>): Taken<Option<Buffer>>
  {
    match Take32(s)
    case Missing => Missing
    case Taken(marker, rest) =>
      if marker == 0 then Taken(None, rest) else
      match TakeBuffer(rest)
      case Missing => Missing
      case Taken(b, rest') => Taken(Some(b), rest')
  }

  lemma TakeObjectPutObject(o: Option<Buffer>, rest: seq<Byte>)
    ensures TakeObject(PutObject(o) + rest) == Taken(o, rest)
  {
    match o
    case None =>
      Take32Put32(0, rest);
    case Some(b) =>
      assert PutObject(o) + rest == Put32(1) + (PutBuffer(b) + rest);
      Take32Put32(1, PutBuffer(b) + rest);
      TakeBufferPutBuffer(b, rest);
  }

  // ----- cells -----

  function Put(c: Cell): (s: seq<Byte>)
    ensures |s| % 4 == 0 && |s| >= 4
  {
    match c
    case Int32Cell(i) => Put32(Unsigned(i))
    case Int64Cell(l) => Put64(l)
    case FloatCell(bits) => Put32(bits)
    case BoolCell(b) => Put32(if b then 1 else 0)
    case TextCell(t) => PutText(t)
    case BufferCell(b) => PutBuffer(b)
    case IntsCell(v) => PutInts(v)
    case RectCell(r) => PutRect(r)
    case ObjectCell(o) => PutObject(o)
  }

  function Mapped<T, U>(t: Taken<T>, f: T -> U): Taken<U>
  {
    match t
    case Missing => Missing
    case Taken(v, rest) => Taken(f(v), rest)
  }

  function Take(t: Type, s: seq<Byte>): (r: Taken<Cell>)
    ensures r.Taken? ==> TypeOf(r.value) == t
  {
    match t
    case Int32Type => Mapped(Take32(s), i => Int32Cell(i))
    case Int64Type => Mapped(Take64(s), l => Int64Cell(l))
    case FloatType => Mapped(Take32(s), i => FloatCell(Unsigned(i)))
    case BoolType => Mapped(Take32(s), i => BoolCell(i != 0))
    case TextType => Mapped(TakeText(s), t => TextCell(t))
    case BufferType => Mapped(TakeBuffer(s), b => BufferCell(b))
    case IntsType => Mapped(TakeInts(s), v => IntsCell(v))
    case RectType => Mapped(TakeRect(s), r => RectCell(r))
    case ObjectType => Mapped(TakeObject(s), o => ObjectCell(o))
  }

  lemma TakePut(c: Cell, rest: seq<Byte>)
    ensures Take(TypeOf(c), Put(c) + rest) == Taken(c, rest)
  {
    hide Take32, Take64, TakeText, TakeBuffer, TakeInts, TakeRect, TakeObject;
    hide Put32, Put64, PutText, PutBuffer, PutInts, PutRect, PutObject;
    match c
    case Int32Cell(i) => Take32Put32(i, rest);
    case Int64Cell(l) => Take64Put64(l, rest);
    case FloatCell(bits) => Take32Put32(Signed(bits), rest);
    case BoolCell(b) => Take32Put32(if b then 1 else 0, rest);
    case TextCell(t) => TakeTextPutText(t, rest);
    case BufferCell(b) => TakeBufferPutBuffer(b, rest);
    case IntsCell(v) => TakeIntsPutInts(v, rest);
    case RectCell(r) => TakeRectPutRect(r, rest);
    case ObjectCell(o) => TakeObjectPutObject(o, rest);
  }

  /** What one read yields: nothing when a strict read fails. */
  function ReadField(f: Field, s: seq<Byte>): (r: Taken<Cell>)
    ensures r.Taken? ==> TypeOf(r.value) == f.type_
    ensures !f.strict ==> r.Taken?
  {
    match Take(f.type_, s)
    case Taken(c, rest) => Taken(c, rest)
    case Missing => if f.strict then Missing else Taken(Default(f.type_), s)
  }

  // ----- records -----

  function PutAll(cells: seq<Cell>): seq<Byte>
  {
    if cells == [] then [] else Put(cells[0]) + PutAll(cells[1..])
  }

  lemma {:induction false} PutAllAligned(cells: seq<Cell>)
    ensures |PutAll(cells)| % 4 == 0 && |PutAll(cells)| >= 4 * |cells|
  {
    hide Put;
    if cells != [] {
      PutAllAligned(cells[1..]);
    }
  }

  lemma {:induction false} PutAllAppend(cells: seq<Cell>, c: Cell)
    ensures PutAll(cells + [c]) == PutAll(cells) + Put(c)
  {
    hide Put;
    if cells == [] {
      assert PutAll([c]) == Put(c) + [];
    } else {
      assert (cells + [c])[1..] == cells[1..] + [c];
      PutAllAppend(cells[1..], c);
      assert PutAll(cells + [c]) == Put(cells[0]) + (PutAll(cells[1..]) + Put(c));
    }
  }

  function ReadAll(fields: seq<Field>, s: seq<Byte>): (r: Taken<seq<Cell>>)
    ensures r.Taken? ==> |r.value| == |fields| && forall i :: 0 <= i < |fields| ==> TypeOf(r.value[i]) == fields[i].type_
  {
    if fields == [] then Taken([], s) else
    match ReadField(fields[0], s)
    case Missing => Missing
    case Taken(c, rest) =>
      match ReadAll(fields[1..], rest)
      case Missing => Missing
      case Taken(cells, rest') => Taken([c] + cells, rest')
  }

  ghost predicate Fits(cells: seq<Cell>, fields: seq<Field>)
  {
    |cells| == |fields| && forall i :: 0 <= i < |fields| ==> TypeOf(cells[i]) == fields[i].type_
  }

  /** Fields read what was written for them, strict or not, and stop where it ends. */
  lemma {:induction false} ReadAllPutAll(fields: seq<Field>, cells: seq<Cell>, rest: seq<Byte>)
    requires Fits(cells, fields)
    ensures ReadAll(fields, PutAll(cells) + rest) == Taken(cells, rest)
  {
    hide Put, Take;
    if cells == [] {
      assert PutAll(cells) + rest == rest;
    } else {
      assert PutAll(cells) + rest == Put(cells[0]) + (PutAll(cells[1..]) + rest);
      TakePut(cells[0], PutAll(cells[1..]) + rest);
      ReadAllPutAll(fields[1..], cells[1..], rest);
      assert [cells[0]] + cells[1..] == cells;
    }
  }

  /** A parcel is written at its end and read from its start; `data` is what has not been read. */
  class MessageParcel {
    var data: seq<Byte>

    constructor ()
      ensures data == []
    {
      data := [];
    }

    method Write(c: Cell)
      modifies this
      ensures data == old(data) + Put(c)
    {
      data := data + Put(c);
    }

    method WriteUint32(n: UInt32)
      modifies this
      ensures data == old(data) + Put32(n)
    {
      data := data + Put32(n);
    }

    /** Raw bytes, filled up with zeros. */
    method WriteBuffer(b: seq<Byte>)
      modifies this
      ensures data == old(data) + Padded(b)
    {
      data := data + Padded(b);
    }

    method Read(f: Field) returns (c: Option<Cell>)
      modifies this
      ensures match ReadField(f, old(data))
              case Missing => c == None && data == old(data)
              case Taken(v, rest) => c == Some(v) && data == rest
    {
      match ReadField(f, data)
      case Missing =>
        return None;
      case Taken(v, rest) =>
        data := rest;
        return Some(v);
    }
  }
}
