/** The byte frame in which a mission snapshot travels: size and bytes of its fields, size and bytes of its picture. */
module SnapshotFrame {
  import opened Common
  import opened Parcels
  import opened Records

  datatype Info = Info(
    version: Int32,
    orientation: Int32,
    rect: Option<Rect>,
    reducedResolution: bool,
    scale: UInt32,
    isRealSnapshot: bool,
    windowingMode: Int32,
    systemUiVisibility: Int32,
    isTranslucent: bool,
    windowBounds: Option<Rect>,
    appLabel: Text,
    abilityLabel: Text,
    icon: Buffer,
    secAppLabel: Text,
    secAbilityLabel: Text,
    secIcon: Buffer,
    sourceDeviceTips: Text)

  /** The picture, as the decoder of the image library yields it. */
  type PixelMap = nat

  type Decoder = seq<Byte> -> Option<PixelMap>

  datatype Snapshot = Snapshot(info: Info, pixelMap: Option<PixelMap>, createdTime: int, lastAccessTime: int)

  const PIXEL_MAP_MAX_BUFFER_SIZE: nat := 600 * 1024

  /** The fields in the order in which they travel. */
  function Cells(s: Info): seq<Cell>
  {
    [Int32Cell(s.version), Int32Cell(s.orientation), RectCell(s.rect), BoolCell(s.reducedResolution), FloatCell(s.scale),
     BoolCell(s.isRealSnapshot), Int32Cell(s.windowingMode), Int32Cell(s.systemUiVisibility), BoolCell(s.isTranslucent),
     RectCell(s.windowBounds), TextCell(s.appLabel), TextCell(s.abilityLabel), BufferCell(s.icon),
     TextCell(s.secAppLabel), TextCell(s.secAbilityLabel), BufferCell(s.secIcon), TextCell(s.sourceDeviceTips)]
  }

  /** How the receiver reads them. */
  const FIELDS: seq<Field> :=
    [Field(Int32Type, true), Field(Int32Type, true), Field(RectType, false), Field(BoolType, true), Field(FloatType, true),
     Field(BoolType, true), Field(Int32Type, true), Field(Int32Type, true), Field(BoolType, true),
     Field(RectType, false), Field(TextType, false), Field(TextType, false), Field(BufferType, true),
     Field(TextType, false), Field(TextType, false), Field(BufferType, true), Field(TextType, false)]

  function FromCells(cells: seq<Cell>): (s: Info)
    requires Fits(cells, FIELDS)
  {
    Info(cells[0].i, cells[1].i, cells[2].rect, cells[3].b, cells[4].bits, cells[5].b, cells[6].i, cells[7].i, cells[8].b,
         cells[9].rect, cells[10].text, cells[11].text, cells[12].buffer, cells[13].text, cells[14].text, cells[15].buffer,
         cells[16].text)
  }

  lemma CellsFit(s: Info)
    ensures Fits(Cells(s), FIELDS)
  {
    CellsAt(s);
    hide Cells;
  }

  /** What the receiver makes of the bytes of the fields. */
  function Filled(bytes: seq<Byte>): Option<Info>
  {
    match ReadAll(FIELDS, bytes)
    case Missing => None
    case Taken(cells, _) => Some(FromCells(cells))
  }

  // ----- the frame -----

  function InfoBytes(s: Info): seq<Byte> { PutAll(Cells(s)) }

  /** What the sender appends for the fields, and for the picture. */
  function InfoFrame(bytes: seq<Byte>): seq<Byte> { Put32(|bytes| % 0x1_0000_0000) + Padded(bytes) }

  /** The byte string starts with the size and bytes of the fields, and the size and bytes of the picture. */
  ghost predicate Framed(data: seq<Byte>, info: seq<Byte>, pixels: seq<Byte>)
  {
    && |info| < 0x1_0000_0000 && |pixels| < 0x1_0000_0000 && |data| >= 8 + |info| + |pixels|
    && Get32(data) == |info| && data[4..4 + |info|] == info
    && Get32(data[4 + |info|..]) == |pixels| && data[8 + |info|..8 + |info| + |pixels|] == pixels
  }

  function Received(info: seq<Byte>, pixels: seq<Byte>, decode: Decoder, tick: int): Option<Snapshot>
  {
    match Filled(Padded(info))
    case None => None
    case Some(v) => Some(Snapshot(v, if pixels == [] then None else decode(pixels), tick, tick))
  }

  lemma InfoRoundTrip(s: Info, rest: seq<Byte>)
    ensures Filled(InfoBytes(s) + rest) == Some(s)
  {
    hide ReadAll, PutAll;
    CellsFit(s);
    ReadAllPutAll(FIELDS, Cells(s), rest);
    FromCellsOf(s);
  }

  lemma FromCellsOf(s: Info)
    requires Fits(Cells(s), FIELDS)
    ensures FromCells(Cells(s)) == s
  {
  }

  lemma PaddedAligned(bytes: seq<Byte>)
    requires |bytes| % 4 == 0
    ensures Padded(bytes) == bytes
  {
  }

  /** Whatever follows it, what the two writers append is a frame of the bytes given to them, if those of the fields come
      to a multiple of four. */
  lemma WrittenIsFramed(info: seq<Byte>, pixels: seq<Byte>, extra: seq<Byte>)
    requires |info| % 4 == 0 && |info| < 0x1_0000_0000 && |pixels| < 0x1_0000_0000
    ensures Framed(InfoFrame(info) + InfoFrame(pixels) + extra, info, pixels)
  {
    hide Put32, Get32, Padded;
    PaddedAligned(info);
    PaddedStarts(pixels);
    var tail := InfoFrame(pixels) + extra;
    var data := InfoFrame(info) + InfoFrame(pixels) + extra;
    assert data == Put32(|info|) + (info + tail);
    Get32Put32(|info|, info + tail);
    assert data[4 + |info|..] == tail == Put32(|pixels|) + (Padded(pixels) + extra);
    Get32Put32(|pixels|, Padded(pixels) + extra);
    assert data[8 + |info|..] == tail[4..] == Padded(pixels) + extra;
    assert data[8 + |info|..8 + |info| + |pixels|] == (Padded(pixels) + extra)[..|pixels|] == pixels;
  }

  lemma PaddedStarts(bytes: seq<Byte>)
    ensures |Padded(bytes)| >= |bytes| && Padded(bytes)[..|bytes|] == bytes
  {
  }

  /** The receiver recovers the fields and the bytes of the picture that were sent. */
  lemma SnapshotRoundTrip(s: Info, pixels: seq<Byte>, extra: seq<Byte>, decode: Decoder, tick: int)
    requires |InfoBytes(s)| < 0x1_0000_0000 && |pixels| < 0x1_0000_0000
    ensures Framed(InfoFrame(InfoBytes(s)) + InfoFrame(pixels) + extra, InfoBytes(s), pixels)
    ensures Received(InfoBytes(s), pixels, decode, tick)
         == Some(Snapshot(s, if pixels == [] then None else decode(pixels), tick, tick))
  {
    hide PutAll, Cells, ReadAll, Framed, Filled;
    PutAllAligned(Cells(s));
    WrittenIsFramed(InfoBytes(s), pixels, extra);
    PaddedAligned(InfoBytes(s));
    InfoRoundTrip(s, []);
    assert InfoBytes(s) + [] == InfoBytes(s);
  }

  // ----- the sender -----

  method WriteSnapshotInfo(s: Info, data: MessageParcel)
    modifies data
    ensures data.data == old(data.data) + InfoFrame(InfoBytes(s))
  {
    ghost var cells := Cells(s);
    CellsAt(s);
    hide Written, PutAll, Cells, Put, Put32, Padded;
    NothingWritten([], cells);
    var parcel := new MessageParcel();
    WriteCell(parcel, Int32Cell(s.version), [], cells, 0);
    WriteCell(parcel, Int32Cell(s.orientation), [], cells, 1);
    WriteCell(parcel, RectCell(s.rect), [], cells, 2);
    WriteCell(parcel, BoolCell(s.reducedResolution), [], cells, 3);
    WriteCell(parcel, FloatCell(s.scale), [], cells, 4);
    WriteCell(parcel, BoolCell(s.isRealSnapshot), [], cells, 5);
    WriteCell(parcel, Int32Cell(s.windowingMode), [], cells, 6);
    WriteCell(parcel, Int32Cell(s.systemUiVisibility), [], cells, 7);
    WriteCell(parcel, BoolCell(s.isTranslucent), [], cells, 8);
    WriteCell(parcel, RectCell(s.windowBounds), [], cells, 9);
    WriteCell(parcel, TextCell(s.appLabel), [], cells, 10);
    WriteCell(parcel, TextCell(s.abilityLabel), [], cells, 11);
    WriteCell(parcel, BufferCell(s.icon), [], cells, 12);
    WriteCell(parcel, TextCell(s.secAppLabel), [], cells, 13);
    WriteCell(parcel, TextCell(s.secAbilityLabel), [], cells, 14);
    WriteCell(parcel, BufferCell(s.secIcon), [], cells, 15);
    WriteCell(parcel, TextCell(s.sourceDeviceTips), [], cells, 16);
    AllWritten(parcel.data, [], cells);
    assert [] + PutAll(cells) == PutAll(cells);
    var infoBuffer := parcel.data;
    data.WriteUint32(|infoBuffer| % 0x1_0000_0000);
    data.WriteBuffer(infoBuffer);
    assert data.data == old(data.data) + InfoFrame(infoBuffer);
  }

  lemma CellsAt(s: Info)
    ensures var c := Cells(s);
            && |c| == 17 && c[0] == Int32Cell(s.version) && c[1] == Int32Cell(s.orientation) && c[2] == RectCell(s.rect)
            && c[3] == BoolCell(s.reducedResolution) && c[4] == FloatCell(s.scale) && c[5] == BoolCell(s.isRealSnapshot)
            && c[6] == Int32Cell(s.windowingMode) && c[7] == Int32Cell(s.systemUiVisibility)
            && c[8] == BoolCell(s.isTranslucent) && c[9] == RectCell(s.windowBounds) && c[10] == TextCell(s.appLabel)
            && c[11] == TextCell(s.abilityLabel) && c[12] == BufferCell(s.icon) && c[13] == TextCell(s.secAppLabel)
            && c[14] == TextCell(s.secAbilityLabel) && c[15] == BufferCell(s.secIcon)
            && c[16] == TextCell(s.sourceDeviceTips)
  {
  }

  /** `compressed` is the picture as the packer of the image library wrote it. */
  method WritePixelMap(compressed: seq<Byte>, data: MessageParcel) returns (ok: bool)
    modifies data
    ensures ok <==> |compressed| <= PIXEL_MAP_MAX_BUFFER_SIZE
    ensures data.data == old(data.data) + (if ok then InfoFrame(compressed) else [])
  {
    if |compressed| > PIXEL_MAP_MAX_BUFFER_SIZE {
      assert data.data + [] == data.data;
      return false;
    }
    data.WriteUint32(|compressed| % 0x1_0000_0000);
    data.WriteBuffer(compressed);
    return true;
  }

  /** A successful call has appended a frame of the fields and the picture. */
  method MissionSnapshotSequence(s: Info, compressed: seq<Byte>, data: MessageParcel) returns (ok: bool)
    requires data.data == []
    modifies data
    ensures ok <==> |compressed| <= PIXEL_MAP_MAX_BUFFER_SIZE
    ensures ok && |InfoBytes(s)| < 0x1_0000_0000 ==> Framed(data.data, InfoBytes(s), compressed)
    ensures data.data == InfoFrame(InfoBytes(s)) + if ok then InfoFrame(compressed) else []
  {
    hide InfoFrame, Framed, InfoBytes, Cells;
    WriteSnapshotInfo(s, data);
    assert data.data == InfoFrame(InfoBytes(s));
    ok := WritePixelMap(compressed, data);
    if ok && |InfoBytes(s)| < 0x1_0000_0000 {
      SnapshotRoundTrip(s, compressed, [], _ => None, 0);
      assert data.data + [] == data.data;
    }
  }

  // ----- the receiver -----

  lemma FilledNone(start: seq<Byte>)
    ensures ReadAll(FIELDS, start).Missing? ==> Filled(start) == None
  {
  }

  lemma FilledFrom(start: seq<Byte>, got: seq<Cell>, rest: seq<Byte>)
    requires SoFar(FIELDS, start, got, rest) && |got| == |FIELDS|
    ensures Fits(got, FIELDS) && Filled(start) == Some(FromCells(got))
  {
    hide SoFar, ReadAll, FromCells;
    AllRead(FIELDS, start, got, rest);
  }

  lemma FieldsAt()
    ensures |FIELDS| == 17 && FIELDS[0] == Field(Int32Type, true) && FIELDS[1] == Field(Int32Type, true)
    ensures FIELDS[2] == Field(RectType, false) && FIELDS[3] == Field(BoolType, true)
    ensures FIELDS[4] == Field(FloatType, true) && FIELDS[5] == Field(BoolType, true)
    ensures FIELDS[6] == Field(Int32Type, true) && FIELDS[7] == Field(Int32Type, true)
    ensures FIELDS[8] == Field(BoolType, true) && FIELDS[9] == Field(RectType, false)
    ensures FIELDS[10] == Field(TextType, false) && FIELDS[11] == Field(TextType, false)
    ensures FIELDS[12] == Field(BufferType, true) && FIELDS[13] == Field(TextType, false)
    ensures FIELDS[14] == Field(TextType, false) && FIELDS[15] == Field(BufferType, true)
    ensures FIELDS[16] == Field(TextType, false)
  {
  }

  /** The first nine fields; the others of the result are empty. */
  method FillFirst(data: MessageParcel) returns (r: Option<Info>, ghost got: seq<Cell>)
    modifies data
    ensures match r
            case None => Filled(old(data.data)) == None
            case Some(s) =>
              && SoFar(FIELDS, old(data.data), got, data.data) && |got| == 9
              && got[0] == Int32Cell(s.version) && got[1] == Int32Cell(s.orientation) && got[2] == RectCell(s.rect)
              && got[3] == BoolCell(s.reducedResolution) && got[4] == FloatCell(s.scale)
              && got[5] == BoolCell(s.isRealSnapshot) && got[6] == Int32Cell(s.windowingMode)
              && got[7] == Int32Cell(s.systemUiVisibility) && got[8] == BoolCell(s.isTranslucent)
  {
    hide SoFar, ReadAll, ReadField, Take, Default, Filled, Fits, TypeOf;
    ghost var start := data.data;
    got := [];
    FieldsAt();
    hide FIELDS;
    NothingRead(FIELDS, start);
    FilledNone(start);
    var version, got1 := ReadInt32(data, FIELDS, start, []);
    if version.None? {
      return None, [];
    }
    var orientation, got2 := ReadInt32(data, FIELDS, start, got1);
    if orientation.None? {
      return None, [];
    }
    var rect, got3 := GetRect(data, FIELDS, start, got2);
    var reduced, got4 := ReadBool(data, FIELDS, start, got3);
    if reduced.None? {
      return None, [];
    }
    var scale, got5 := ReadFloat(data, FIELDS, start, got4);
    if scale.None? {
      return None, [];
    }
    var isRealSnapshot, got6 := ReadBool(data, FIELDS, start, got5);
    if isRealSnapshot.None? {
      return None, [];
    }
    var windowingMode, got7 := ReadInt32(data, FIELDS, start, got6);
    if windowingMode.None? {
      return None, [];
    }
    var systemUiVisibility, got8 := ReadInt32(data, FIELDS, start, got7);
    if systemUiVisibility.None? {
      return None, [];
    }
    var isTranslucent, got9 := ReadBool(data, FIELDS, start, got8);
    if isTranslucent.None? {
      return None, [];
    }
    return Some(Info(version.value, orientation.value, rect, reduced.value, scale.value, isRealSnapshot.value,
                     windowingMode.value, systemUiVisibility.value, isTranslucent.value,
                     None, [], [], [], [], [], [], [])), got9;
  }

  /** FillSnapShot: nothing if a read that has to succeed fails. */
  method FillSnapShot(data: MessageParcel) returns (r: Option<Info>)
    modifies data
    ensures r == Filled(old(data.data))
  {
    hide SoFar, ReadAll, ReadField, Take, Default, Filled, Fits, TypeOf;
    ghost var start := data.data;
    FieldsAt();
    hide FIELDS;
    FilledNone(start);
    var first, got9 := FillFirst(data);
    if first.None? {
      return None;
    }
    var windowBounds, got10 := GetRect(data, FIELDS, start, got9);
    var appLabel, got11 := GetText(data, FIELDS, start, got10);
    var abilityLabel, got12 := GetText(data, FIELDS, start, got11);
    var icon, got13 := ReadBuffer(data, FIELDS, start, got12);
    if icon.None? {
      return None;
    }
    var secAppLabel, got14 := GetText(data, FIELDS, start, got13);
    var secAbilityLabel, got15 := GetText(data, FIELDS, start, got14);
    var secIcon, got16 := ReadBuffer(data, FIELDS, start, got15);
    if secIcon.None? {
      return None;
    }
    var sourceDeviceTips, got17 := GetText(data, FIELDS, start, got16);
    FilledFrom(start, got17, data.data);
    return Some(first.value.(
      windowBounds := windowBounds, appLabel := appLabel, abilityLabel := abilityLabel, icon := icon.value,
      secAppLabel := secAppLabel, secAbilityLabel := secAbilityLabel, secIcon := secIcon.value,
      sourceDeviceTips := sourceDeviceTips));
  }

  method CreatePixelMap(buffer: seq<Byte>, decode: Decoder) returns (r: Option<PixelMap>)
    ensures r == if buffer == [] then None else decode(buffer)
  {
    if |buffer| == 0 {
      return None;
    }
    return decode(buffer);
  }

  /** Reads only inside the byte string, and yields what the frame it starts with holds, provided its size fits in 32
      bits; a longer one is never taken for a frame that it does not start with. */
  method Create(data: seq<Byte>, decode: Decoder, tick: int) returns (r: Option<Snapshot>)
    ensures r.Some? ==> exists info, pixels :: Framed(data, info, pixels) && r == Received(info, pixels, decode, tick)
    ensures |data| < 0x1_0000_0000 ==>
              forall info, pixels :: Framed(data, info, pixels) ==> r == Received(info, pixels, decode, tick)
  {
    hide Received, Filled, Get32, Padded;
    var totalSize := |data|;
    if totalSize < 4 {
      return None;
    }
    var msgSize: int := Get32(data);
    if msgSize >= totalSize || msgSize + 4 >= totalSize {
      return None;
    }
    var offset := 4;
    var dataParcel := new MessageParcel();
    dataParcel.WriteBuffer(data[offset..offset + msgSize]);
    ghost var info := data[offset..offset + msgSize];
    assert dataParcel.data == Padded(info);
    var snapShot := FillSnapShot(dataParcel);
    if snapShot.None? {
      forall p ensures Received(info, p, decode, tick) == None { ReceivedIs(info, p, decode, tick); }
      return None;
    }
    offset := offset + msgSize;
    var remainSize := (totalSize - msgSize - 4) % 0x1_0000_0000;
    if remainSize < 4 {
      return None;
    }
    var pixelmapLen: int := Get32(data[offset..]);
    if pixelmapLen >= remainSize || pixelmapLen + 4 > remainSize {
      return None;
    }
    offset := offset + 4;
    ghost var pixels := data[offset..offset + pixelmapLen];
    var pixelMap := CreatePixelMap(data[offset..offset + pixelmapLen], decode);
    ReceivedIs(info, pixels, decode, tick);
    assert Framed(data, info, pixels);
    return Some(Snapshot(snapShot.value, pixelMap, tick, tick));
  }

  lemma ReceivedIs(info: seq<Byte>, pixels: seq<Byte>, decode: Decoder, tick: int)
    ensures Received(info, pixels, decode, tick) ==
      match Filled(Padded(info))
      case None => None
      case Some(v) => Some(Snapshot(v, if pixels == [] then None else decode(pixels), tick, tick))
  {
  }
}
