/** The parcelable `android.media.MicrophoneInfoFw`: three fields framed by a
    4-byte size header, read back tolerantly so that older and newer writers
    interoperate. */
module Media {
  import opened Base
  import opened Parcels

  /** The fields of a MicrophoneInfoFw, in declaration order. */
  datatype Record = Record(info: Option<Nested>, dynamic: Option<Nested>, portId: int32)

  /** The value a freshly constructed MicrophoneInfoFw holds. */
  const Defaults := Record(None, None, 0)

  /** The cells of the first `n` fields, in declaration order. */
  function FieldCells(x: Record, n: nat): (cells: seq<Cell>)
    requires n <= 3
  {
    if n == 0 then []
    else if n == 1 then EncodeTyped(x.info)
    else if n == 2 then EncodeTyped(x.info) + EncodeTyped(x.dynamic)
    else EncodeTyped(x.info) + EncodeTyped(x.dynamic) + Encode(IntV(x.portId))
  }

  /** The bytes `writeToParcel` writes, header included. */
  function RecordWidth(x: Record): nat
  {
    4 + |FieldCells(x, 3)|
  }

  /** What `writeToParcel` writes: a size header that counts the whole
      record, itself included, then every field. */
  function EncodeRecord(x: Record): (cells: seq<Cell>)
    requires RecordWidth(x) <= INT32_MAX
    ensures |cells| == RecordWidth(x)
    ensures cells[0] == Start(IntV(|cells|))
    ensures cells[4..] == FieldCells(x, 3)
  {
    Encode(IntV(RecordWidth(x))) + FieldCells(x, 3)
  }

  /** `x` with its first `n` fields taken from `y`. */
  function TakeFields(x: Record, y: Record, n: nat): Record
  {
    Record(if n >= 1 then y.info else x.info,
           if n >= 2 then y.dynamic else x.dynamic,
           if n >= 3 then y.portId else x.portId)
  }

  /** The outcome of `readFromParcel`: the fields, the cursor, and the
      exception it threw, if any. */
  datatype ReadOutcome = ReadOutcome(record: Record, pos: nat, thrown: Option<Exception>)

  /** The `try` block of `readFromParcel`, entered with the cursor at `p`,
      right after the header read at `start`: each field is read only while
      fewer than `size` bytes have been consumed. */
  function ReadFields(data: seq<Cell>, start: nat, size: int32, p: nat, x: Record): (o: ReadOutcome)
    requires start <= p
  {
    if size < 4 then ReadOutcome(x, p, Some(ParcelableTooSmall))
    else if p - start >= size then ReadOutcome(x, p, None)
    else match ReadTypedAt(data, p)
      case Threw(e, q) => ReadOutcome(x, q, Some(e))
      case Done(info, q) => ReadDynamic(data, start, size, q, x.(info := info))
  }

  /** The second field of the `try` block. */
  function ReadDynamic(data: seq<Cell>, start: nat, size: int32, p: nat, x: Record): (o: ReadOutcome)
    requires start <= p
  {
    if p - start >= size then ReadOutcome(x, p, None)
    else match ReadTypedAt(data, p)
      case Threw(e, q) => ReadOutcome(x, q, Some(e))
      case Done(dynamic, q) => ReadPortId(data, start, size, q, x.(dynamic := dynamic))
  }

  /** The third field of the `try` block. */
  function ReadPortId(data: seq<Cell>, start: nat, size: int32, p: nat, x: Record): (o: ReadOutcome)
    requires start <= p
  {
    if p - start >= size then ReadOutcome(x, p, None)
    else match ReadIntAt(data, p)
      case Threw(e, q) => ReadOutcome(x, q, Some(e))
      case Done(portId, q) => ReadOutcome(x.(portId := portId), q, None)
  }

  /** The check in the `finally` block, in Java `int` arithmetic: a negative
      size makes `Integer.MAX_VALUE - size` wrap around. */
  predicate Overflows(start: int32, size: int32)
  {
    start > Sub32(INT32_MAX as int32, size)
  }

  /** `readFromParcel` on an object holding `x`, with the cursor at `start`.
      A failed header read happens before the `try` and skips the `finally`;
      otherwise the `finally` either throws the overflow exception (replacing
      any exception of the `try`) or moves the cursor to `start + size`. */
  function ReadRecord(data: seq<Cell>, start: nat, x: Record): ReadOutcome
    requires start <= INT32_MAX
  {
    match ReadIntAt(data, start)
    case Threw(e, q) => ReadOutcome(x, q, Some(e))
    case Done(size, p) =>
      var body := ReadFields(data, start, size, p, x);
      if Overflows(start, size) then body.(thrown := Some(ParcelableOverflow))
      else body.(pos := start + size)
  }

  /** A negative declared size always trips the overflow check. */
  lemma {:induction false} NegativeSizeOverflows(start: int32, size: int32)
    requires 0 <= start && size < 0
    ensures Overflows(start, size)
  {
  }

  /** A declared size below 4 throws: the overflow exception when the check
      in `finally` trips, the too-small exception otherwise; no field is read. */
  lemma {:induction false} ReadRecordRejectsSmallSize(data: seq<Cell>, start: nat, x: Record)
    requires start <= INT32_MAX
    requires ReadIntAt(data, start).Done? && ReadIntAt(data, start).value < 4
    ensures var size := ReadIntAt(data, start).value;
      ReadRecord(data, start, x).thrown
        == Some(if Overflows(start, size) then ParcelableOverflow else ParcelableTooSmall)
    ensures ReadRecord(data, start, x).record == x
  {
  }

  /** Whatever was read, without overflow the cursor ends at `start + size`,
      so unknown trailing data is skipped; with overflow the exception is thrown. */
  lemma {:induction false} ReadRecordEndsAtDeclaredSize(data: seq<Cell>, start: nat, x: Record)
    requires start <= INT32_MAX
    requires ReadIntAt(data, start).Done?
    ensures var size := ReadIntAt(data, start).value;
      var o := ReadRecord(data, start, x);
      if Overflows(start, size) then o.thrown == Some(ParcelableOverflow)
      else size >= 0 && o.pos == start + size
  {
  }

  /** Truncation tolerance: a record whose declared size covers exactly its
      first `n` fields (a writer with fewer fields) sets those fields and
      keeps the rest; a record that declares more than all three fields (a
      writer with more fields) sets all three and skips the rest. */
  lemma {:induction false} ReadRecordOfFirstFields(data: seq<Cell>, start: nat, x: Record, y: Record, n: nat, size: int32)
    requires n <= 3 && start <= INT32_MAX
    requires if n < 3 then size == 4 + |FieldCells(y, n)| else 4 + |FieldCells(y, 3)| <= size
    requires start + size <= INT32_MAX
    requires At(data, start, Encode(IntV(size)) + FieldCells(y, n))
    ensures ReadRecord(data, start, x) == ReadOutcome(TakeFields(x, y, n), start + size, None)
  {
    AtSplit(data, start, Encode(IntV(size)), FieldCells(y, n));
    ReadIntAtEncoded(data, start, size);
    ReadFieldsOfPrefix(data, start, size, x, y, n);
  }

  /** The `try` block over the first `n` fields. */
  lemma {:induction false} ReadFieldsOfPrefix(data: seq<Cell>, start: nat, size: int32, x: Record, y: Record, n: nat)
    requires n <= 3
    requires if n < 3 then size == 4 + |FieldCells(y, n)| else 4 + |FieldCells(y, 3)| <= size
    requires At(data, start + 4, FieldCells(y, n))
    ensures ReadFields(data, start, size, start + 4, x)
         == ReadOutcome(TakeFields(x, y, n), start + 4 + |FieldCells(y, n)|, None)
  {
    var ci, cd := EncodeTyped(y.info), EncodeTyped(y.dynamic);
    var p0 := start + 4;
    if n == 1 {
      assert FieldCells(y, 1) == ci;
      ReadTypedAtEncoded(data, p0, y.info);
      ReadStepsOne(data, start, size, x, y, p0 + |ci|);
    } else if n == 2 {
      ReadTwoFields(data, start, size, x, y);
    } else if n == 3 {
      ReadAllFields(data, start, size, x, y);
    }
  }

  /** The read of the `try` block for one field, returning it, with the
      declared size used up after it. */
  lemma {:induction false} ReadStepsOne(data: seq<Cell>, start: nat, size: int32, x: Record, y: Record, p1: nat)
    requires start + 4 < start + size == p1
    requires ReadTypedAt(data, start + 4) == Done(y.info, p1)
    ensures ReadFields(data, start, size, start + 4, x) == ReadOutcome(x.(info := y.info), p1, None)
  {
  }

  /** A writer that knew only the first two fields. */
  lemma {:induction false} ReadTwoFields(data: seq<Cell>, start: nat, size: int32, x: Record, y: Record)
    requires size == 4 + |FieldCells(y, 2)|
    requires At(data, start + 4, FieldCells(y, 2))
    ensures ReadFields(data, start, size, start + 4, x)
         == ReadOutcome(x.(info := y.info, dynamic := y.dynamic), start + 4 + |FieldCells(y, 2)|, None)
  {
    var ci, cd := EncodeTyped(y.info), EncodeTyped(y.dynamic);
    var p0 := start + 4;
    var p1 := p0 + |ci|;
    assert At(data, p0, ci) && At(data, p1, cd) && |FieldCells(y, 2)| == |ci| + |cd| by {
      assert FieldCells(y, 2) == ci + cd;
      AtSplit(data, p0, ci, cd);
    }
    ReadTypedAtEncoded(data, p0, y.info);
    ReadTypedAtEncoded(data, p1, y.dynamic);
    ReadStepsTwo(data, start, size, x, y, p1, p1 + |cd|);
  }

  /** The reads of the `try` block for two fields, each returning its
      field, with the declared size used up after the second. */
  lemma {:induction false} ReadStepsTwo(data: seq<Cell>, start: nat, size: int32, x: Record, y: Record, p1: nat, p2: nat)
    requires start + 4 <= p1 < p2 == start + size
    requires ReadTypedAt(data, start + 4) == Done(y.info, p1)
    requires ReadTypedAt(data, p1) == Done(y.dynamic, p2)
    ensures ReadFields(data, start, size, start + 4, x) == ReadOutcome(x.(info := y.info, dynamic := y.dynamic), p2, None)
  {
  }

  /** All three fields present, possibly followed by unknown ones. */
  lemma {:induction false} ReadAllFields(data: seq<Cell>, start: nat, size: int32, x: Record, y: Record)
    requires 4 + |FieldCells(y, 3)| <= size
    requires At(data, start + 4, FieldCells(y, 3))
    ensures ReadFields(data, start, size, start + 4, x) == ReadOutcome(y, start + 4 + |FieldCells(y, 3)|, None)
  {
    var p0 := start + 4;
    var p1 := p0 + |EncodeTyped(y.info)|;
    var p2 := p1 + |EncodeTyped(y.dynamic)|;
    AllFieldsParts(data, p0, y);
    ReadTypedAtEncoded(data, p0, y.info);
    ReadTypedAtEncoded(data, p1, y.dynamic);
    ReadIntAtEncoded(data, p2, y.portId);
    ReadStepsAll(data, start, size, x, y, p1, p2);
  }

  /** The three fields of a full record, each found where it was written. */
  lemma {:induction false} AllFieldsParts(data: seq<Cell>, p: nat, y: Record)
    requires At(data, p, FieldCells(y, 3))
    ensures var ci, cd := EncodeTyped(y.info), EncodeTyped(y.dynamic);
      && At(data, p, ci) && At(data, p + |ci|, cd) && At(data, p + |ci| + |cd|, Encode(IntV(y.portId)))
      && |FieldCells(y, 3)| == |ci| + |cd| + 4
  {
    var ci, cd, cp := EncodeTyped(y.info), EncodeTyped(y.dynamic), Encode(IntV(y.portId));
    AtSplit(data, p, ci + cd, cp);
    AtSplit(data, p, ci, cd);
  }

  /** The reads of the `try` block for three fields, each returning its
      field, within the declared size. */
  lemma {:induction false} ReadStepsAll(data: seq<Cell>, start: nat, size: int32, x: Record, y: Record, p1: nat, p2: nat)
    requires start + 4 <= p1 <= p2 && p2 + 4 <= start + size
    requires ReadTypedAt(data, start + 4) == Done(y.info, p1)
    requires ReadTypedAt(data, p1) == Done(y.dynamic, p2)
    requires ReadIntAt(data, p2) == Done(y.portId, p2 + 4)
    ensures ReadFields(data, start, size, start + 4, x) == ReadOutcome(y, p2 + 4, None)
  {
  }

  /** Reading back what `writeToParcel` wrote recovers every field and leaves
      the cursor at the end of the record. */
  lemma {:induction false} ReadRecordRoundTrip(d: seq<Cell>, start: nat, x: Record, y: Record)
    requires start + RecordWidth(y) <= INT32_MAX
    ensures ReadRecord(Overwrite(d, start, EncodeRecord(y)), start, x)
         == ReadOutcome(y, start + RecordWidth(y), None)
  {
    AtOverwrite(d, start, EncodeRecord(y));
    ReadRecordOfFirstFields(Overwrite(d, start, EncodeRecord(y)), start, x, y, 3, RecordWidth(y) as int32);
  }

  /** What `describeContents(Object)` reports for one nested field: 0 for
      null. */
  function NestedMask(o: Option<Nested>): int32
  {
    if o.None? then 0 else o.value.contentsMask
  }

  /** `describeContents`: 0, or-ed with the mask of each nested field in
      turn. A bit is reported exactly when some non-null nested field
      reports it. */
  function DescribeContents(x: Record): (mask: int32)
    ensures forall k: nat :: BitSet(mask, k) <==>
      ((x.info.Some? && BitSet(x.info.value.contentsMask, k))
       || (x.dynamic.Some? && BitSet(x.dynamic.value.contentsMask, k)))
  {
    forall k: nat
      ensures !BitSet(0, k)
    {
      BitSetEnds(k);
    }
    Or32(Or32(0, NestedMask(x.info)), NestedMask(x.dynamic))
  }

  lemma {:induction false} RecordWidthOfFields(x: Record)
    ensures RecordWidth(x) == 8 + |EncodeTyped(x.info)| + |EncodeTyped(x.dynamic)|
  {
  }

  /** A placeholder header `h0`, three runs written one after the other,
      then the header back-patched with `h`: the same as writing `h` and the
      three runs at once. */
  lemma {:induction false} WriteSteps(d: seq<Cell>, start: nat, h0: seq<Cell>, a: seq<Cell>, b: seq<Cell>, c: seq<Cell>,
                                      h: seq<Cell>, q1: nat, q2: nat, q3: nat,
                                      d1: seq<Cell>, d2: seq<Cell>, d3: seq<Cell>, d4: seq<Cell>)
    requires |h0| == |h| && q1 == start + |h0| && q2 == q1 + |a| && q3 == q2 + |b|
    requires d1 == Overwrite(d, start, h0)
    requires d2 == Overwrite(d1, q1, a)
    requires d3 == Overwrite(d2, q2, b)
    requires d4 == Overwrite(d3, q3, c)
    ensures Overwrite(d4, start, h) == Overwrite(d, start, h + (a + b + c))
  {
    assert d3 == Overwrite(d1, q1, a + b) by {
      OverwriteConcat(d1, q1, a, b);
    }
    assert d4 == Overwrite(d, start, h0 + (a + b + c)) by {
      OverwriteConcat(d1, q1, a + b, c);
      OverwriteConcat(d, start, h0, a + b + c);
    }
    OverwritePatch(d, start, h0, h, a + b + c);
  }

  /** The writes of `writeToParcel`, the header back-patched with the number
      of bytes written, leave the record encoding at the start position. */
  lemma {:induction false} WriteRecordSteps(d: seq<Cell>, start: nat, x: Record, q1: nat, q2: nat, q3: nat, w: int32,
                         d1: seq<Cell>, d2: seq<Cell>, d3: seq<Cell>, d4: seq<Cell>, d5: seq<Cell>)
    requires q1 == start + 4 && q2 == q1 + |EncodeTyped(x.info)| && q3 == q2 + |EncodeTyped(x.dynamic)|
    requires w == q3 + 4 - start
    requires d1 == Overwrite(d, start, Encode(IntV(0)))
    requires d2 == Overwrite(d1, q1, EncodeTyped(x.info))
    requires d3 == Overwrite(d2, q2, EncodeTyped(x.dynamic))
    requires d4 == Overwrite(d3, q3, Encode(IntV(x.portId)))
    requires d5 == Overwrite(d4, start, Encode(IntV(w)))
    ensures w == RecordWidth(x)
    ensures d5 == Overwrite(d, start, EncodeRecord(x))
  {
    var ci, cd, cp := EncodeTyped(x.info), EncodeTyped(x.dynamic), Encode(IntV(x.portId));
    WriteSteps(d, start, Encode(IntV(0)), ci, cd, cp, Encode(IntV(w)), q1, q2, q3, d1, d2, d3, d4);
    assert FieldCells(x, 3) == ci + cd + cp;
  }

  class MicrophoneInfoFw {
    var info: Option<Nested>
    var dynamic: Option<Nested>
    var portId: int32

    function AsRecord(): Record
      reads this
    {
      Record(info, dynamic, portId)
    }

    constructor ()
      ensures AsRecord() == Defaults
    {
      info, dynamic, portId := None, None, 0;
    }

    /** Writes a placeholder header and the fields, then back-patches the
        header with the number of bytes written. */
    method WriteToParcel(p: Parcel)
      requires p.pos + RecordWidth(AsRecord()) <= INT32_MAX
      modifies p
      ensures p.data == Overwrite(old(p.data), old(p.pos), EncodeRecord(AsRecord()))
      ensures p.pos == old(p.pos) + RecordWidth(AsRecord())
    {
      var x := AsRecord();
      ghost var d := p.data;
      RecordWidthOfFields(x);
      var start := p.pos;
      p.WriteInt(0);
      ghost var d1, q1 := p.data, p.pos;
      p.WriteTypedObject(x.info);
      ghost var d2, q2 := p.data, p.pos;
      p.WriteTypedObject(x.dynamic);
      ghost var d3, q3 := p.data, p.pos;
      p.WriteInt(x.portId);
      var end := p.pos;
      ghost var d4 := p.data;
      p.SetDataPosition(start);
      p.WriteInt(end - start);
      ghost var d5 := p.data;
      p.SetDataPosition(end);
      WriteRecordSteps(d, start, x, q1, q2, q3, end - start, d1, d2, d3, d4, d5);
    }

    /** The `try` block of `readFromParcel`. */
    method ReadFieldsFrom(p: Parcel, start: nat, size: int32) returns (thrown: Option<Exception>)
      requires start <= p.pos
      modifies this, p
      ensures p.data == old(p.data)
      ensures ReadOutcome(AsRecord(), p.pos, thrown) == ReadFields(old(p.data), start, size, old(p.pos), old(AsRecord()))
    {
      if size < 4 {
        return Some(ParcelableTooSmall);
      }
      if p.pos - start >= size {
        return None;
      }
      var i := p.ReadTypedObject();
      if i.Err? {
        return Some(i.error);
      }
      info := i.value;
      if p.pos - start >= size {
        return None;
      }
      var dy := p.ReadTypedObject();
      if dy.Err? {
        return Some(dy.error);
      }
      dynamic := dy.value;
      if p.pos - start >= size {
        return None;
      }
      var pid := p.ReadInt();
      if pid.Err? {
        return Some(pid.error);
      }
      portId := pid.value;
      thrown := None;
    }

    method ReadFromParcel(p: Parcel) returns (thrown: Option<Exception>)
      requires p.pos <= INT32_MAX
      modifies this, p
      ensures p.data == old(p.data)
      ensures ReadOutcome(AsRecord(), p.pos, thrown) == ReadRecord(old(p.data), old(p.pos), old(AsRecord()))
    {
      var start := p.pos;
      var header := p.ReadInt();
      if header.Err? {
        return Some(header.error);
      }
      var size := header.value;
      thrown := ReadFieldsFrom(p, start, size);
      if start > Sub32(INT32_MAX as int32, size) {
        return Some(ParcelableOverflow);
      }
      p.SetDataPosition(start + size);
    }
  }

  /** `CREATOR.createFromParcel`: a fresh object filled by `readFromParcel`. */
  method CreateFromParcel(p: Parcel) returns (m: MicrophoneInfoFw, thrown: Option<Exception>)
    requires p.pos <= INT32_MAX
    modifies p
    ensures fresh(m) && p.data == old(p.data)
    ensures ReadOutcome(m.AsRecord(), p.pos, thrown) == ReadRecord(old(p.data), old(p.pos), Defaults)
  {
    m := new MicrophoneInfoFw();
    thrown := m.ReadFromParcel(p);
  }
}
