/** The list of missions that one device sends to another, from the local missions to the answer given to an app. */
module MissionList {
  import opened Common
  import opened Parcels
  import opened Records

  /** `baseWant` and the abilities are objects of other libraries, kept as the bytes they travel as. */
  datatype DstbMissionInfo = DstbMissionInfo(
    id: Int32,
    runingState: Int32,
    userId: Int32,
    missionStackId: Int32,
    combinedMissionIds: Ints,
    windowMode: Int32,
    boundsLeft: Int32,
    boundsTop: Int32,
    boundsRight: Int32,
    boundsBottom: Int32,
    baseWant: Option<Buffer>,
    topAbility: Option<Buffer>,
    baseAbility: Option<Buffer>,
    reservedAbility: Option<Buffer>,
    lastMissionActiveTime: Int64,
    displayId: Int32,
    label_: Text,
    size: Int32,
    iconPath: Text,
    continuable: Int32,
    windowType: Int32,
    lockedState: bool,
    missionType: Int32,
    windowTypeMode: Int32)

  datatype MissionInfo = MissionInfo(
    id: Int32,
    runningState: Int32,
    lockedState: bool,
    continuable: bool,
    time: Text,
    label_: Text,
    iconPath: Text,
    want: Buffer)

  const VALUE_NULL: Int32 := -1
  const VALUE_OBJECT: Int32 := 1

  // ----- one mission -----

  function FirstCells(m: DstbMissionInfo): seq<Cell>
  {
    [Int32Cell(m.id), Int32Cell(m.runingState), Int32Cell(m.userId), Int32Cell(m.missionStackId),
     IntsCell(m.combinedMissionIds), Int32Cell(m.windowMode), Int32Cell(m.boundsLeft), Int32Cell(m.boundsTop),
     Int32Cell(m.boundsRight), Int32Cell(m.boundsBottom), ObjectCell(m.baseWant)]
  }

  function OtherCells(m: DstbMissionInfo): seq<Cell>
  {
    [ObjectCell(m.topAbility), ObjectCell(m.baseAbility), ObjectCell(m.reservedAbility),
     Int64Cell(m.lastMissionActiveTime), Int32Cell(m.displayId), TextCell(m.label_), Int32Cell(m.size),
     TextCell(m.iconPath), Int32Cell(m.continuable), Int32Cell(m.windowType), BoolCell(m.lockedState),
     Int32Cell(m.missionType), Int32Cell(m.windowTypeMode)]
  }

  /** The fields in the order in which they travel. */
  function Cells(m: DstbMissionInfo): seq<Cell> { FirstCells(m) + OtherCells(m) }

  // How the receiver reads them: all but the list of ids with a default.

  const FIRST_FIELDS: seq<Field> :=
    [Field(Int32Type, false), Field(Int32Type, false), Field(Int32Type, false), Field(Int32Type, false),
     Field(IntsType, true), Field(Int32Type, false), Field(Int32Type, false), Field(Int32Type, false),
     Field(Int32Type, false), Field(Int32Type, false), Field(ObjectType, false)]

  const OTHER_FIELDS: seq<Field> :=
    [Field(ObjectType, false), Field(ObjectType, false), Field(ObjectType, false), Field(Int64Type, false),
     Field(Int32Type, false), Field(TextType, false), Field(Int32Type, false), Field(TextType, false),
     Field(Int32Type, false), Field(Int32Type, false), Field(BoolType, false), Field(Int32Type, false),
     Field(Int32Type, false)]

  const FIELDS: seq<Field> := FIRST_FIELDS + OTHER_FIELDS

  function FromCells(cells: seq<Cell>): DstbMissionInfo
    requires Fits(cells, FIELDS)
  {
    DstbMissionInfo(
      cells[0].i, cells[1].i, cells[2].i, cells[3].i, cells[4].ints, cells[5].i, cells[6].i, cells[7].i, cells[8].i,
      cells[9].i, cells[10].body, cells[11].body, cells[12].body, cells[13].body, cells[14].l, cells[15].i,
      cells[16].text, cells[17].i, cells[18].text, cells[19].i, cells[20].i, cells[21].b, cells[22].i, cells[23].i)
  }

  lemma FirstCellsAt(m: DstbMissionInfo)
    ensures var c := FirstCells(m);
            && |c| == 11 && c[0] == Int32Cell(m.id) && c[1] == Int32Cell(m.runingState) && c[2] == Int32Cell(m.userId)
            && c[3] == Int32Cell(m.missionStackId) && c[4] == IntsCell(m.combinedMissionIds)
            && c[5] == Int32Cell(m.windowMode) && c[6] == Int32Cell(m.boundsLeft) && c[7] == Int32Cell(m.boundsTop)
            && c[8] == Int32Cell(m.boundsRight) && c[9] == Int32Cell(m.boundsBottom) && c[10] == ObjectCell(m.baseWant)
  {
  }

  lemma OtherCellsAt(m: DstbMissionInfo)
    ensures var c := OtherCells(m);
            && |c| == 13 && c[0] == ObjectCell(m.topAbility) && c[1] == ObjectCell(m.baseAbility)
            && c[2] == ObjectCell(m.reservedAbility) && c[3] == Int64Cell(m.lastMissionActiveTime)
            && c[4] == Int32Cell(m.displayId) && c[5] == TextCell(m.label_) && c[6] == Int32Cell(m.size)
            && c[7] == TextCell(m.iconPath) && c[8] == Int32Cell(m.continuable) && c[9] == Int32Cell(m.windowType)
            && c[10] == BoolCell(m.lockedState) && c[11] == Int32Cell(m.missionType)
            && c[12] == Int32Cell(m.windowTypeMode)
  {
  }

  lemma CellsAt(m: DstbMissionInfo)
    ensures var c := Cells(m);
            && |c| == 24 && c[0] == Int32Cell(m.id) && c[1] == Int32Cell(m.runingState) && c[2] == Int32Cell(m.userId)
            && c[3] == Int32Cell(m.missionStackId) && c[4] == IntsCell(m.combinedMissionIds)
            && c[5] == Int32Cell(m.windowMode) && c[6] == Int32Cell(m.boundsLeft) && c[7] == Int32Cell(m.boundsTop)
            && c[8] == Int32Cell(m.boundsRight) && c[9] == Int32Cell(m.boundsBottom) && c[10] == ObjectCell(m.baseWant)
            && c[11] == ObjectCell(m.topAbility) && c[12] == ObjectCell(m.baseAbility)
            && c[13] == ObjectCell(m.reservedAbility) && c[14] == Int64Cell(m.lastMissionActiveTime)
            && c[15] == Int32Cell(m.displayId) && c[16] == TextCell(m.label_) && c[17] == Int32Cell(m.size)
            && c[18] == TextCell(m.iconPath) && c[19] == Int32Cell(m.continuable) && c[20] == Int32Cell(m.windowType)
            && c[21] == BoolCell(m.lockedState) && c[22] == Int32Cell(m.missionType)
            && c[23] == Int32Cell(m.windowTypeMode)
  {
    FirstCellsAt(m);
    OtherCellsAt(m);
    hide FirstCells, OtherCells;
  }

  lemma FirstFieldsAt()
    ensures |FIRST_FIELDS| == 11 && FIRST_FIELDS[0] == Field(Int32Type, false)
    ensures FIRST_FIELDS[1] == Field(Int32Type, false) && FIRST_FIELDS[2] == Field(Int32Type, false)
    ensures FIRST_FIELDS[3] == Field(Int32Type, false) && FIRST_FIELDS[4] == Field(IntsType, true)
    ensures FIRST_FIELDS[5] == Field(Int32Type, false) && FIRST_FIELDS[6] == Field(Int32Type, false)
    ensures FIRST_FIELDS[7] == Field(Int32Type, false) && FIRST_FIELDS[8] == Field(Int32Type, false)
    ensures FIRST_FIELDS[9] == Field(Int32Type, false) && FIRST_FIELDS[10] == Field(ObjectType, false)
  {
  }

  lemma OtherFieldsAt()
    ensures |OTHER_FIELDS| == 13 && OTHER_FIELDS[0] == Field(ObjectType, false)
    ensures OTHER_FIELDS[1] == Field(ObjectType, false) && OTHER_FIELDS[2] == Field(ObjectType, false)
    ensures OTHER_FIELDS[3] == Field(Int64Type, false) && OTHER_FIELDS[4] == Field(Int32Type, false)
    ensures OTHER_FIELDS[5] == Field(TextType, false) && OTHER_FIELDS[6] == Field(Int32Type, false)
    ensures OTHER_FIELDS[7] == Field(TextType, false) && OTHER_FIELDS[8] == Field(Int32Type, false)
    ensures OTHER_FIELDS[9] == Field(Int32Type, false) && OTHER_FIELDS[10] == Field(BoolType, false)
    ensures OTHER_FIELDS[11] == Field(Int32Type, false) && OTHER_FIELDS[12] == Field(Int32Type, false)
  {
  }

  lemma FieldsAt()
    ensures |FIELDS| == 24 && FIELDS[0] == Field(Int32Type, false)
    ensures FIELDS[1] == Field(Int32Type, false) && FIELDS[2] == Field(Int32Type, false)
    ensures FIELDS[3] == Field(Int32Type, false) && FIELDS[4] == Field(IntsType, true)
    ensures FIELDS[5] == Field(Int32Type, false) && FIELDS[6] == Field(Int32Type, false)
    ensures FIELDS[7] == Field(Int32Type, false) && FIELDS[8] == Field(Int32Type, false)
    ensures FIELDS[9] == Field(Int32Type, false) && FIELDS[10] == Field(ObjectType, false)
    ensures FIELDS[11] == Field(ObjectType, false) && FIELDS[12] == Field(ObjectType, false)
    ensures FIELDS[13] == Field(ObjectType, false) && FIELDS[14] == Field(Int64Type, false)
    ensures FIELDS[15] == Field(Int32Type, false) && FIELDS[16] == Field(TextType, false)
    ensures FIELDS[17] == Field(Int32Type, false) && FIELDS[18] == Field(TextType, false)
    ensures FIELDS[19] == Field(Int32Type, false) && FIELDS[20] == Field(Int32Type, false)
    ensures FIELDS[21] == Field(BoolType, false) && FIELDS[22] == Field(Int32Type, false)
    ensures FIELDS[23] == Field(Int32Type, false)
  {
    FirstFieldsAt();
    OtherFieldsAt();
    hide FIRST_FIELDS, OTHER_FIELDS;
  }

  lemma CellsFit(m: DstbMissionInfo)
    ensures Fits(Cells(m), FIELDS)
  {
    CellsAt(m);
    FieldsAt();
    hide Cells, FIELDS;
  }

  lemma FromCellsOf(m: DstbMissionInfo)
    requires Fits(Cells(m), FIELDS)
    ensures FromCells(Cells(m)) == m
  {
    CellsAt(m);
    hide Cells, Fits;
  }

  function PutInfo(m: DstbMissionInfo): seq<Byte> { PutAll(Cells(m)) }

  function TakeInfo(s: seq<Byte>): Taken<DstbMissionInfo>
  {
    match ReadAll(FIELDS, s)
    case Missing => Missing
    case Taken(cells, rest) => Taken(FromCells(cells), rest)
  }

  lemma InfoRoundTrip(m: DstbMissionInfo, rest: seq<Byte>)
    ensures TakeInfo(PutInfo(m) + rest) == Taken(m, rest)
  {
    hide ReadAll, PutAll, Cells, FromCells, FIELDS;
    CellsFit(m);
    FromCellsOf(m);
    ReadAllPutAll(FIELDS, Cells(m), rest);
  }

  /** The first ten fields, behind `base`. */
  method MarshalFirst(m: DstbMissionInfo, parcel: MessageParcel)
    modifies parcel
    ensures Written(parcel.data, old(parcel.data), Cells(m), 10)
  {
    ghost var base, cells := parcel.data, Cells(m);
    CellsAt(m);
    hide Written, PutAll, Cells, Put;
    NothingWritten(base, cells);
    WriteCell(parcel, Int32Cell(m.id), base, cells, 0);
    WriteCell(parcel, Int32Cell(m.runingState), base, cells, 1);
    WriteCell(parcel, Int32Cell(m.userId), base, cells, 2);
    WriteCell(parcel, Int32Cell(m.missionStackId), base, cells, 3);
    WriteCell(parcel, IntsCell(m.combinedMissionIds), base, cells, 4);
    WriteCell(parcel, Int32Cell(m.windowMode), base, cells, 5);
    WriteCell(parcel, Int32Cell(m.boundsLeft), base, cells, 6);
    WriteCell(parcel, Int32Cell(m.boundsTop), base, cells, 7);
    WriteCell(parcel, Int32Cell(m.boundsRight), base, cells, 8);
    WriteCell(parcel, Int32Cell(m.boundsBottom), base, cells, 9);
  }

  method Marshalling(m: DstbMissionInfo, parcel: MessageParcel)
    modifies parcel
    ensures parcel.data == old(parcel.data) + PutInfo(m)
  {
    ghost var base, cells := parcel.data, Cells(m);
    CellsAt(m);
    hide Written, PutAll, Cells, Put;
    MarshalFirst(m, parcel);
    WriteCell(parcel, ObjectCell(m.baseWant), base, cells, 10);
    WriteCell(parcel, ObjectCell(m.topAbility), base, cells, 11);
    WriteCell(parcel, ObjectCell(m.baseAbility), base, cells, 12);
    WriteCell(parcel, ObjectCell(m.reservedAbility), base, cells, 13);
    WriteCell(parcel, Int64Cell(m.lastMissionActiveTime), base, cells, 14);
    WriteCell(parcel, Int32Cell(m.displayId), base, cells, 15);
    WriteCell(parcel, TextCell(m.label_), base, cells, 16);
    WriteCell(parcel, Int32Cell(m.size), base, cells, 17);
    WriteCell(parcel, TextCell(m.iconPath), base, cells, 18);
    WriteCell(parcel, Int32Cell(m.continuable), base, cells, 19);
    WriteCell(parcel, Int32Cell(m.windowType), base, cells, 20);
    WriteCell(parcel, BoolCell(m.lockedState), base, cells, 21);
    WriteCell(parcel, Int32Cell(m.missionType), base, cells, 22);
    WriteCell(parcel, Int32Cell(m.windowTypeMode), base, cells, 23);
    AllWritten(parcel.data, base, cells);
  }

  lemma TakeInfoNone(start: seq<Byte>)
    ensures ReadAll(FIELDS, start).Missing? ==> TakeInfo(start).Missing?
  {
  }

  lemma TakeInfoFrom(start: seq<Byte>, got: seq<Cell>, rest: seq<Byte>)
    requires SoFar(FIELDS, start, got, rest) && |got| == |FIELDS|
    ensures Fits(got, FIELDS) && TakeInfo(start) == Taken(FromCells(got), rest)
  {
    hide SoFar, ReadAll, FromCells;
    AllRead(FIELDS, start, got, rest);
  }

  /** What is left behind the first four numbers, whether or not they are there. */
  function AfterFour(s: seq<Byte>): seq<Byte>
  {
    Lenient32(Lenient32(Lenient32(Lenient32(s).1).1).1).1
  }

  lemma {:induction false} LenientAlwaysRead(fields: seq<Field>, s: seq<Byte>)
    requires forall i :: 0 <= i < |fields| ==> !fields[i].strict
    ensures ReadAll(fields, s).Taken?
  {
    hide ReadField;
    if fields != [] {
      LenientAlwaysRead(fields[1..], ReadField(fields[0], s).rest);
    }
  }

  lemma NumberThenRest(fields: seq<Field>, s: seq<Byte>)
    requires fields != [] && fields[0] == Field(Int32Type, false)
    ensures ReadAll(fields, s).Taken? <==> ReadAll(fields[1..], Lenient32(s).1).Taken?
  {
  }

  lemma ListThenRest(fields: seq<Field>, s: seq<Byte>)
    requires fields != [] && fields[0] == Field(IntsType, true)
    requires forall i :: 1 <= i < |fields| ==> !fields[i].strict
    ensures ReadAll(fields, s).Taken? <==> TakeInts(s).Taken?
  {
    hide TakeInts;
    if TakeInts(s).Taken? {
      LenientAlwaysRead(fields[1..], TakeInts(s).rest);
    }
  }

  /** A mission is read from any bytes in which the list of ids, behind four numbers, can be read; all else has a default. */
  lemma FailsOnIdsOnly(s: seq<Byte>)
    ensures TakeInfo(s).Taken? <==> TakeInts(AfterFour(s)).Taken?
  {
    FieldsAt();
    var fields := FIELDS;
    hide FIELDS, ReadAll, TakeInts, FromCells, Fits, TypeOf, Lenient32;
    var s1 := Lenient32(s).1;
    var s2 := Lenient32(s1).1;
    var s3 := Lenient32(s2).1;
    NumberThenRest(fields, s);
    NumberThenRest(fields[1..], s1);
    NumberThenRest(fields[2..], s2);
    NumberThenRest(fields[3..], s3);
    assert fields[1..][1..] == fields[2..] && fields[2..][1..] == fields[3..] && fields[3..][1..] == fields[4..];
    ListThenRest(fields[4..], Lenient32(s3).1);
  }

  method ReadFromParcel(parcel: MessageParcel) returns (m: Option<DstbMissionInfo>)
    modifies parcel
    ensures match TakeInfo(old(parcel.data))
            case Missing => m == None
            case Taken(v, rest) => m == Some(v) && parcel.data == rest
  {
    hide SoFar, ReadAll, ReadField, Take, Default, TakeInfo, Fits, TypeOf;
    ghost var start := parcel.data;
    FieldsAt();
    hide FIELDS;
    TakeInfoNone(start);
    NothingRead(FIELDS, start);
    var id, got1 := GetInt32(parcel, FIELDS, start, []);
    var runingState, got2 := GetInt32(parcel, FIELDS, start, got1);
    var userId, got3 := GetInt32(parcel, FIELDS, start, got2);
    var missionStackId, got4 := GetInt32(parcel, FIELDS, start, got3);
    var combinedMissionIds, got5 := ReadInts(parcel, FIELDS, start, got4);
    if combinedMissionIds.None? {
      return None;
    }
    var windowMode, got6 := GetInt32(parcel, FIELDS, start, got5);
    var boundsLeft, got7 := GetInt32(parcel, FIELDS, start, got6);
    var boundsTop, got8 := GetInt32(parcel, FIELDS, start, got7);
    var boundsRight, got9 := GetInt32(parcel, FIELDS, start, got8);
    var boundsBottom, got10 := GetInt32(parcel, FIELDS, start, got9);
    var baseWant, got11 := GetObject(parcel, FIELDS, start, got10);
    var topAbility, got12 := GetObject(parcel, FIELDS, start, got11);
    var baseAbility, got13 := GetObject(parcel, FIELDS, start, got12);
    var reservedAbility, got14 := GetObject(parcel, FIELDS, start, got13);
    var lastMissionActiveTime, got15 := GetInt64(parcel, FIELDS, start, got14);
    var displayId, got16 := GetInt32(parcel, FIELDS, start, got15);
    var label_, got17 := GetText(parcel, FIELDS, start, got16);
    var size, got18 := GetInt32(parcel, FIELDS, start, got17);
    var iconPath, got19 := GetText(parcel, FIELDS, start, got18);
    var continuable, got20 := GetInt32(parcel, FIELDS, start, got19);
    var windowType, got21 := GetInt32(parcel, FIELDS, start, got20);
    var lockedState, got22 := GetBool(parcel, FIELDS, start, got21);
    var missionType, got23 := GetInt32(parcel, FIELDS, start, got22);
    var windowTypeMode, got24 := GetInt32(parcel, FIELDS, start, got23);
    TakeInfoFrom(start, got24, parcel.data);
    return Some(DstbMissionInfo(
      id, runingState, userId, missionStackId, combinedMissionIds.value, windowMode, boundsLeft, boundsTop,
      boundsRight, boundsBottom, baseWant, topAbility, baseAbility, reservedAbility, lastMissionActiveTime, displayId,
      label_, size, iconPath, continuable, windowType, lockedState, missionType, windowTypeMode));
  }

  // ----- a list of missions -----

  type Missions = s: seq<DstbMissionInfo> | |s| <= MAX_LENGTH

  /** Each mission behind a marker that says there is one. */
  function PutInfos(ms: seq<DstbMissionInfo>): seq<Byte>
  {
    if ms == [] then [] else Put32(1) + (PutInfo(ms[0]) + PutInfos(ms[1..]))
  }

  function PutList(ms: Missions): seq<Byte>
  {
    if ms == [] then Put32(Unsigned(VALUE_NULL)) else Put32(Unsigned(VALUE_OBJECT)) + (Put32(|ms|) + PutInfos(ms))
  }

  function TakeInfos(s: seq<Byte>, n: nat): (r: Taken<seq<DstbMissionInfo>>)
    ensures r.Taken? ==> |r.value| == n
    decreases n
  {
    if n == 0 then Taken([], s) else
    var (marker, s1) := Lenient32(s);
    if marker == 0 then Missing else
    match TakeInfo(s1)
    case Missing => Missing
    case Taken(m, s2) =>
      match TakeInfos(s2, n - 1)
      case Missing => Missing
      case Taken(ms, rest) => Taken([m] + ms, rest)
  }

  /** The missions read before the first that cannot be read. */
  function Readable(s: seq<Byte>, n: nat): seq<DstbMissionInfo>
    decreases n
  {
    if n == 0 then [] else
    var (marker, s1) := Lenient32(s);
    if marker == 0 then [] else
    match TakeInfo(s1)
    case Missing => []
    case Taken(m, s2) => [m] + Readable(s2, n - 1)
  }

  /** What a failed read leaves in the vector: its old contents after a bad length, else the missions read so far. */
  function Remains(s: seq<Byte>, before: seq<DstbMissionInfo>): seq<DstbMissionInfo>
  {
    var (len, s2) := Lenient32(Lenient32(s).1);
    if len < 0 || len > |s2| then before else Readable(s2, len)
  }

  /** A list that is read in full is what was readable. */
  lemma {:induction false} ReadableIsAll(s: seq<Byte>, n: nat)
    ensures TakeInfos(s, n).Taken? <==> |Readable(s, n)| == n
    ensures TakeInfos(s, n).Taken? ==> TakeInfos(s, n).value == Readable(s, n)
    ensures |Readable(s, n)| <= n
    decreases n
  {
    hide Lenient32, TakeInfo;
    if n > 0 && TakeInfo(Lenient32(s).1).Taken? {
      ReadableIsAll(TakeInfo(Lenient32(s).1).rest, n - 1);
    }
  }

  /** What reading a list leaves in a vector that held `before`. */
  function TakeList(s: seq<Byte>, before: seq<DstbMissionInfo>): Taken<seq<DstbMissionInfo>>
  {
    var (tag, s1) := Lenient32(s);
    if tag != VALUE_OBJECT then Taken(before, s1) else
    var (len, s2) := Lenient32(s1);
    if len < 0 || len > |s2| then Missing else TakeInfos(s2, len)
  }

  lemma Lenient32Put32(i: Int32, rest: seq<Byte>)
    ensures Lenient32(Put32(Unsigned(i)) + rest) == (i, rest)
  {
    Take32Put32(i, rest);
  }

  lemma {:induction false} InfosRoundTrip(ms: seq<DstbMissionInfo>, rest: seq<Byte>)
    ensures TakeInfos(PutInfos(ms) + rest, |ms|) == Taken(ms, rest)
    ensures |PutInfos(ms)| >= |ms|
  {
    hide Put32, Lenient32, TakeInfo, PutInfo;
    if ms == [] {
      assert PutInfos(ms) + rest == rest;
    } else {
      var tail := PutInfos(ms[1..]) + rest;
      assert PutInfos(ms) + rest == Put32(1) + (PutInfo(ms[0]) + tail);
      Lenient32Put32(1, PutInfo(ms[0]) + tail);
      InfoRoundTrip(ms[0], tail);
      InfosRoundTrip(ms[1..], rest);
      assert [ms[0]] + ms[1..] == ms;
    }
  }

  /** Reading a list that was written gives back the list; only an empty one leaves what the vector held before. */
  lemma ListRoundTrip(ms: Missions, before: seq<DstbMissionInfo>, rest: seq<Byte>)
    ensures TakeList(PutList(ms) + rest, before) == Taken(if ms == [] then before else ms, rest)
    ensures TakeList(PutList(ms) + rest, before) == Taken(ms, rest) <==> ms != [] || before == []
  {
    hide Put32, Lenient32, TakeInfos, PutInfos;
    if ms == [] {
      Lenient32Put32(VALUE_NULL, rest);
    } else {
      var tail := PutInfos(ms) + rest;
      assert PutList(ms) + rest == Put32(Unsigned(VALUE_OBJECT)) + (Put32(|ms|) + tail);
      Lenient32Put32(VALUE_OBJECT, Put32(|ms|) + tail);
      Lenient32Put32(|ms|, tail);
      InfosRoundTrip(ms, rest);
    }
  }

  method WriteDstbMissionInfosToParcel(parcel: MessageParcel, missionInfos: Missions)
    modifies parcel
    ensures parcel.data == old(parcel.data) + PutList(missionInfos)
  {
    hide PutInfos, PutInfo, Put32;
    var size := |missionInfos|;
    if size == 0 {
      parcel.WriteUint32(Unsigned(VALUE_NULL));
      return;
    }
    parcel.WriteUint32(Unsigned(VALUE_OBJECT));
    parcel.WriteUint32(size);
    ghost var start := parcel.data;
    for i := 0 to size
      invariant parcel.data + PutInfos(missionInfos[i..]) == start + PutInfos(missionInfos)
    {
      PutInfosStep(missionInfos, i, parcel.data);
      parcel.WriteUint32(1);
      Marshalling(missionInfos[i], parcel);
    }
    PutInfosEnd(missionInfos, parcel.data);
    var tag, count := Put32(Unsigned(VALUE_OBJECT)), Put32(size);
    assert start == old(parcel.data) + tag + count;
    assert parcel.data == old(parcel.data) + (tag + (count + PutInfos(missionInfos)));
  }

  lemma PutInfosStep(ms: seq<DstbMissionInfo>, i: nat, data: seq<Byte>)
    requires i < |ms|
    ensures data + PutInfos(ms[i..]) == ((data + Put32(1)) + PutInfo(ms[i])) + PutInfos(ms[i + 1..])
  {
    hide PutInfo, Put32;
    assert ms[i..][1..] == ms[i + 1..];
    assert PutInfos(ms[i..]) == Put32(1) + (PutInfo(ms[i]) + PutInfos(ms[i + 1..]));
  }

  lemma PutInfosEnd(ms: seq<DstbMissionInfo>, data: seq<Byte>)
    ensures data + PutInfos(ms[|ms|..]) == data
  {
  }

  method ReadMarker(parcel: MessageParcel) returns (i: Int32)
    modifies parcel
    ensures (i, parcel.data) == Lenient32(old(parcel.data))
  {
    var c := parcel.Read(Field(Int32Type, false));
    return c.value.i;
  }

  /** Reading into a vector that holds `before`. */
  method ReadDstbMissionInfosFromParcel(parcel: MessageParcel, before: seq<DstbMissionInfo>)
    returns (ok: bool, missionInfos: seq<DstbMissionInfo>)
    modifies parcel
    ensures match TakeList(old(parcel.data), before)
            case Missing => !ok && missionInfos == Remains(old(parcel.data), before)
            case Taken(ms, rest) => ok && missionInfos == ms && parcel.data == rest
  {
    hide Lenient32, TakeInfo, TakeInfos, Readable;
    missionInfos := before;
    var empty := ReadMarker(parcel);
    if empty == VALUE_OBJECT {
      var len := ReadMarker(parcel);
      if len < 0 {
        return false, missionInfos;
      }
      var size: nat := len;
      if size > |parcel.data| {
        return false, missionInfos;
      }
      missionInfos := [];
      ghost var start := parcel.data;
      InfosStart(start, size);
      for i := 0 to size
        invariant InfosSoFar(start, size, missionInfos, parcel.data, i)
        invariant missionInfos + Readable(parcel.data, size - i) == Readable(start, size)
      {
        InfosNext(start, size, missionInfos, parcel.data, i);
        ReadableNext(missionInfos, parcel.data, size - i);
        var marker := ReadMarker(parcel);
        if marker == 0 {
          return false, missionInfos;
        }
        var m := ReadFromParcel(parcel);
        if m.None? {
          return false, missionInfos;
        }
        missionInfos := missionInfos + [m.value];
      }
      InfosEnd(start, size, missionInfos, parcel.data);
    }
    return true, missionInfos;
  }

  lemma ReadableNext(got: seq<DstbMissionInfo>, rest: seq<Byte>, n: nat)
    requires n > 0
    ensures var (marker, s1) := Lenient32(rest);
            if marker == 0 then got + Readable(rest, n) == got else
            match TakeInfo(s1)
            case Missing => got + Readable(rest, n) == got
            case Taken(m, s2) => got + Readable(rest, n) == (got + [m]) + Readable(s2, n - 1)
  {
    hide Lenient32, TakeInfo;
  }

  /** The first i missions were read; with those that follow, they are the list. */
  ghost predicate InfosSoFar(start: seq<Byte>, n: nat, got: seq<DstbMissionInfo>, rest: seq<Byte>, i: nat)
  {
    && i <= n
    && match TakeInfos(rest, n - i)
       case Missing => TakeInfos(start, n).Missing?
       case Taken(ms, rest') => TakeInfos(start, n) == Taken(got + ms, rest')
  }

  lemma InfosStart(start: seq<Byte>, n: nat)
    ensures InfosSoFar(start, n, [], start, 0)
  {
    hide TakeInfos;
    match TakeInfos(start, n)
    case Missing =>
    case Taken(ms, _) => assert [] + ms == ms;
  }

  lemma InfosEnd(start: seq<Byte>, n: nat, got: seq<DstbMissionInfo>, rest: seq<Byte>)
    requires InfosSoFar(start, n, got, rest, n)
    ensures TakeInfos(start, n) == Taken(got, rest)
  {
    assert got + [] == got;
  }

  lemma InfosNext(start: seq<Byte>, n: nat, got: seq<DstbMissionInfo>, rest: seq<Byte>, i: nat)
    requires InfosSoFar(start, n, got, rest, i) && i < n
    ensures var (marker, s1) := Lenient32(rest);
            if marker == 0 then TakeInfos(start, n).Missing? else
            match TakeInfo(s1)
            case Missing => TakeInfos(start, n).Missing?
            case Taken(m, s2) => InfosSoFar(start, n, got + [m], s2, i + 1)
  {
    hide Lenient32, TakeInfo;
    var (marker, s1) := Lenient32(rest);
    if marker != 0 && TakeInfo(s1).Taken? {
      var m, s2 := TakeInfo(s1).value, TakeInfo(s1).rest;
      match TakeInfos(s2, n - i - 1)
      case Missing =>
      case Taken(ms, rest') => assert got + ([m] + ms) == (got + [m]) + ms;
    }
  }

  // ----- conversion -----

  function ToDstb(m: MissionInfo): DstbMissionInfo
  {
    DstbMissionInfo(
      m.id, m.runningState, 0, -1, [], 0, 0, 0, 0, 0, Some(m.want), None, None, None, 0, 0, m.label_, 0, m.iconPath,
      if m.continuable then 1 else 0, 0, m.lockedState, 0x7fff_ffff, 0)
  }

  function FromDstb(m: DstbMissionInfo): MissionInfo
    requires m.baseWant.Some?
  {
    MissionInfo(m.id, m.runingState, m.lockedState, m.continuable == 1, [], m.label_, m.iconPath, m.baseWant.value)
  }

  ghost predicate HaveWants(ms: seq<DstbMissionInfo>)
  {
    forall i :: 0 <= i < |ms| ==> ms[i].baseWant.Some?
  }

  function AllToDstb(ms: seq<MissionInfo>): (r: seq<DstbMissionInfo>)
    ensures |r| == |ms| && HaveWants(r)
  {
    seq(|ms|, i requires 0 <= i < |ms| => ToDstb(ms[i]))
  }

  function AllFromDstb(ms: seq<DstbMissionInfo>): (r: seq<MissionInfo>)
    requires HaveWants(ms)
  {
    seq(|ms|, i requires 0 <= i < |ms| => FromDstb(ms[i]))
  }

  /** The seven fields that travel; the time stays behind. */
  function Shown(m: MissionInfo): MissionInfo { m.(time := []) }

  method ConvertToDstbMissionInfos(missionInfos: seq<MissionInfo>, before: seq<DstbMissionInfo>)
    returns (dstbMissionInfos: seq<DstbMissionInfo>)
    ensures dstbMissionInfos == before + AllToDstb(missionInfos)
  {
    dstbMissionInfos := before;
    if |missionInfos| == 0 {
      return;
    }
    for i := 0 to |missionInfos|
      invariant dstbMissionInfos == before + AllToDstb(missionInfos)[..i]
    {
      var m := missionInfos[i];
      dstbMissionInfos := dstbMissionInfos + [ToDstb(m)];
    }
  }

  /** The receiver takes a want for granted: it dereferences a null one exactly if some mission has none, and is `broken`
      from there on. */
  method ConvertToMissionInfos(dstbMissionInfos: seq<DstbMissionInfo>, before: seq<MissionInfo>)
    returns (broken: bool, missionInfos: seq<MissionInfo>)
    ensures broken <==> !HaveWants(dstbMissionInfos)
    ensures !broken ==> missionInfos == before + AllFromDstb(dstbMissionInfos)
  {
    broken, missionInfos := false, before;
    if |dstbMissionInfos| == 0 {
      return;
    }
    for i := 0 to |dstbMissionInfos|
      invariant !broken && HaveWants(dstbMissionInfos[..i])
      invariant missionInfos == before + AllFromDstb(dstbMissionInfos[..i])
    {
      if dstbMissionInfos[i].baseWant.None? {
        return true, missionInfos;
      }
      assert dstbMissionInfos[..i + 1] == dstbMissionInfos[..i] + [dstbMissionInfos[i]];
      missionInfos := missionInfos + [FromDstb(dstbMissionInfos[i])];
    }
    assert dstbMissionInfos[..|dstbMissionInfos|] == dstbMissionInfos;
  }

  // ----- the cache of the receiver -----

  datatype Step = Reborn(uuid: DeviceId, missions: Missions) | Clean(uuid: DeviceId)

  /** The list last synced for the device and not cleaned since. */
  function LastSynced(history: seq<Step>, uuid: DeviceId): Option<Missions>
  {
    if history == [] then None else
    var step := history[|history| - 1];
    if step.uuid != uuid then LastSynced(history[..|history| - 1], uuid)
    else if step.Reborn? then Some(step.missions)
    else None
  }

  /** Step i synced the list for the device, and no later step was about the device. */
  ghost predicate LastAbout(history: seq<Step>, uuid: DeviceId, missions: Missions, i: int)
  {
    0 <= i < |history| && history[i] == Reborn(uuid, missions) && forall j :: i < j < |history| ==> history[j].uuid != uuid
  }

  lemma LastAboutStep(init: seq<Step>, step: Step, uuid: DeviceId, missions: Missions, i: int)
    ensures i != |init| ==> (LastAbout(init + [step], uuid, missions, i) <==>
                             LastAbout(init, uuid, missions, i) && step.uuid != uuid)
    ensures LastAbout(init + [step], uuid, missions, |init|) <==> step == Reborn(uuid, missions)
    ensures !LastAbout(init, uuid, missions, |init|)
  {
    var history := init + [step];
    assert forall j :: 0 <= j < |init| ==> history[j] == init[j];
    assert history[|init|] == step;
  }

  /** A list is the last synced for a device exactly if some sync brought it, and no later sync or clean was about the
      device. */
  lemma {:induction false} LastSyncedExactly(history: seq<Step>, uuid: DeviceId, missions: Missions)
    ensures LastSynced(history, uuid) == Some(missions) <==> exists i :: LastAbout(history, uuid, missions, i)
  {
    if history != [] {
      var init, step := history[..|history| - 1], history[|history| - 1];
      assert history == init + [step];
      LastSyncedExactly(init, uuid, missions);
      hide LastAbout;
      forall i ensures i != |init| ==> (LastAbout(history, uuid, missions, i) <==>
                                        LastAbout(init, uuid, missions, i) && step.uuid != uuid)
               ensures LastAbout(history, uuid, missions, |init|) <==> step == Reborn(uuid, missions)
               ensures !LastAbout(init, uuid, missions, |init|)
      {
        LastAboutStep(init, step, uuid, missions, i);
      }
    }
  }

  /** The last two stand for INVALID_PARAMETERS_ERR and ERR_NULL_OBJECT. */
  datatype Fetched = Fetched(missions: seq<DstbMissionInfo>) | NoDevice | NotCached

  function Answer(history: seq<Step>, uuid: DeviceId, numMissions: nat): Fetched
  {
    if uuid == "" then NoDevice else
    match LastSynced(history, uuid)
    case None => NotCached
    case Some(ms) => Fetched(ms[..Smaller(|ms|, numMissions)])
  }

  /** What the app is shown of missions that the other device sent. */
  function AllShown(sent: seq<MissionInfo>): seq<MissionInfo>
  {
    seq(|sent|, i requires 0 <= i < |sent| => Shown(sent[i]))
  }

  /** From end to end: the list that the sender converts and writes is read back as it was, and the answer made of its
      first missions shows the first missions of the sender. */
  lemma EndToEnd(sent: seq<MissionInfo>, rest: seq<Byte>, numMissions: nat)
    requires |sent| <= MAX_LENGTH
    ensures TakeList(PutList(AllToDstb(sent)) + rest, []) == Taken(AllToDstb(sent), rest)
    ensures var n := Smaller(|sent|, numMissions);
            AllFromDstb(AllToDstb(sent)[..n]) == AllShown(sent)[..n]
  {
    hide TakeList, PutList;
    ListRoundTrip(AllToDstb(sent), [], rest);
  }

  /** If the list last synced for a device is what was read from the sender's bytes, an app that asks for its missions
      gets the first ones of the sender. */
  lemma SyncedEndToEnd(sent: seq<MissionInfo>, rest: seq<Byte>, history: seq<Step>, uuid: DeviceId, numMissions: nat)
    requires |sent| <= MAX_LENGTH && uuid != ""
    requires TakeList(PutList(AllToDstb(sent)) + rest, []).Taken?
    requires LastSynced(history, uuid).Some?
    requires LastSynced(history, uuid).value == TakeList(PutList(AllToDstb(sent)) + rest, []).value
    ensures var r, n := Answer(history, uuid, numMissions), Smaller(|sent|, numMissions);
            r.Fetched? && HaveWants(r.missions) && AllFromDstb(r.missions) == AllShown(sent)[..n]
  {
    hide TakeList, PutList;
    EndToEnd(sent, rest, numMissions);
  }

  function Smaller(a: nat, b: nat): nat { if a <= b then a else b }

  class MissionCache {
    /** The uuid for each network id, as the device index answers. */
    const uuidOf: DeviceId -> DeviceId
    var deviceMissionInfos: map<DeviceId, Missions>
    ghost var history: seq<Step>

    ghost predicate Valid()
      reads this
    {
      forall u :: && (u in deviceMissionInfos <==> LastSynced(history, u).Some?)
                  && (u in deviceMissionInfos ==> deviceMissionInfos[u] == LastSynced(history, u).value)
    }

    constructor (uuidOf: DeviceId -> DeviceId)
      ensures Valid() && history == [] && this.uuidOf == uuidOf
    {
      this.uuidOf := uuidOf;
      deviceMissionInfos, history := map[], [];
    }

    method RebornMissionCache(deviceId: DeviceId, missionInfos: Missions)
      requires Valid()
      modifies this
      ensures Valid()
      ensures history == old(history) + if uuidOf(deviceId) != "" then [Reborn(uuidOf(deviceId), missionInfos)] else []
    {
      var uuid := uuidOf(deviceId);
      if uuid == "" {
        return;
      }
      deviceMissionInfos := deviceMissionInfos[uuid := missionInfos];
      assert (history + [Reborn(uuid, missionInfos)])[..|history|] == history;
      history := history + [Reborn(uuid, missionInfos)];
    }

    method CleanMissionCache(deviceId: DeviceId)
      requires Valid()
      modifies this
      ensures Valid()
      ensures history == old(history) + if uuidOf(deviceId) != "" then [Clean(uuidOf(deviceId))] else []
    {
      var uuid := uuidOf(deviceId);
      if uuid == "" {
        return;
      }
      deviceMissionInfos := deviceMissionInfos - {uuid};
      assert (history + [Clean(uuid)])[..|history|] == history;
      history := history + [Clean(uuid)];
    }

    /** At most the asked number of missions, from the start of the list last synced for the device. */
    method FetchCachedRemoteMissions(srcId: DeviceId, numMissions: nat) returns (r: Fetched)
      requires Valid()
      ensures r == Answer(history, uuidOf(srcId), numMissions)
      ensures r.Fetched? ==>
                && LastSynced(history, uuidOf(srcId)).Some?
                && var all := LastSynced(history, uuidOf(srcId)).value;
                   if |all| <= numMissions then r.missions == all else r.missions == all[..numMissions]
    {
      var uuid := uuidOf(srcId);
      if uuid == "" {
        return NoDevice;
      }
      if uuid !in deviceMissionInfos {
        return NotCached;
      }
      var ms: seq<DstbMissionInfo> := deviceMissionInfos[uuid];
      var actualNums := |ms|;
      return Fetched(if actualNums > numMissions then ms[..numMissions] else ms);
    }

    /** `online` tells whether the device is known to be online. A null want is dereferenced exactly if one of the missions
        that answer the call has none; those behind them do not matter. */
    method GetMissionInfos(deviceId: DeviceId, online: bool, numMissions: int, before: seq<MissionInfo>)
      returns (result: Fetched, broken: bool, missionInfos: seq<MissionInfo>)
      requires Valid()
      ensures result == if deviceId == "" || !online || numMissions <= 0 then NoDevice
                        else Answer(history, uuidOf(deviceId), numMissions)
      ensures broken <==> result.Fetched? && !HaveWants(result.missions)
      ensures !broken ==> missionInfos == before + if result.Fetched? then AllFromDstb(result.missions) else []
    {
      broken, missionInfos := false, before;
      if deviceId == "" || !online {
        return NoDevice, broken, missionInfos;
      }
      if numMissions <= 0 {
        return NoDevice, broken, missionInfos;
      }
      result := FetchCachedRemoteMissions(deviceId, numMissions);
      if result.Fetched? {
        broken, missionInfos := ConvertToMissionInfos(result.missions, before);
      }
    }
  }
}
