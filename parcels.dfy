/** An abstract `android.os.Parcel`: a sequence of byte-sized cells and a
    cursor.  A value written at the cursor occupies `Width(v)` cells: one
    `Start(v)` cell that holds it, then `Cont` cells for its remaining bytes.
    Positions and widths are counted in bytes, as `dataPosition()` counts them. */
module Parcels {
  import opened Base

  /** A bit position of a Java `int` flag mask. */
  type Bit = k: nat | k < 32

  /** A nested parcelable whose own fields are not modelled: an opaque
      payload, its size on the wire (4 bytes per word, plus 4) and the
      `int` mask its `describeContents()` reports. */
  datatype Nested = Nested(payload: int, words: nat, contentsMask: int32)

  /** The kinds of value the modelled code puts in a parcel. */
  datatype Value =
    | IntV(i: int32)             // writeInt; writeByte writes its byte as an int
    | StrV(s: Option<string>)    // writeString; null is allowed
    | NestedV(n: Nested)         // the body a nested writeToParcel produces

  datatype Cell = Start(v: Value) | Cont

  /** `n` rounded up to a whole number of 4-byte words. */
  function Align4(n: nat): (r: nat)
    ensures n <= r < n + 4
  {
    if n == 0 then 0 else if n <= 4 then 4 else 4 + Align4(n - 4)
  }

  /** Bytes a value occupies: a 4-byte int; a string as a 4-byte length then
      UTF-16 units and a terminator, padded to 4 (null is the length alone);
      a nested body as its declared size. */
  function Width(v: Value): (w: nat)
    ensures w >= 4
  {
    match v
    case IntV(_) => 4
    case StrV(None) => 4
    case StrV(Some(s)) => 4 + Align4(2 * |s| + 2)
    case NestedV(n) => 4 * (n.words + 1)
  }

  /** The continuation cells of a value's remaining `n` bytes. */
  function Conts(n: nat): (r: seq<Cell>)
    ensures |r| == n
  {
    if n == 0 then [] else [Cont] + Conts(n - 1)
  }

  /** The cells one value occupies. */
  function Encode(v: Value): (r: seq<Cell>)
    ensures |r| == Width(v) && r[0] == Start(v)
  {
    [Start(v)] + Conts(Width(v) - 1)
  }

  /** What `writeTypedObject` writes: 0 for null, else 1 and the body. */
  function EncodeTyped(o: Option<Nested>): (r: seq<Cell>)
    ensures |r| == if o.None? then 4 else 4 + Width(NestedV(o.value))
    ensures r[0] == Start(IntV(if o.None? then 0 else 1))
  {
    match o
    case None => Encode(IntV(0))
    case Some(n) => Encode(IntV(1)) + Encode(NestedV(n))
  }

  /** The cell at index `i` once `cells` has been written at `p` over `data`;
      a gap left by writing past the end holds uninterpreted bytes. */
  function CellAfterWrite(data: seq<Cell>, p: nat, cells: seq<Cell>, i: nat): Cell
  {
    if p <= i < p + |cells| then cells[i - p]
    else if i < |data| then data[i]
    else Cont
  }

  lemma {:induction false} ContsAt(n: nat, i: nat)
    requires i < n
    ensures Conts(n)[i] == Cont
  {
    if i > 0 {
      ContsAt(n - 1, i - 1);
    }
  }

  /** Writing one byte at position `p`: past the end, the parcel grows and
      the gap holds uninterpreted bytes. */
  function Put(data: seq<Cell>, p: nat, c: Cell): (r: seq<Cell>)
    ensures |r| == if p < |data| then |data| else p + 1
  {
    if p < |data| then data[p := c] else data + Conts(p - |data|) + [c]
  }

  lemma {:induction false} PutCell(data: seq<Cell>, p: nat, c: Cell, i: nat)
    requires i < |Put(data, p, c)|
    ensures Put(data, p, c)[i] == if i == p then c else if i < |data| then data[i] else Cont
  {
    if |data| <= i < p {
      ContsAt(p - |data|, i - |data|);
    }
  }

  /** Writing `cells` at position `p`, byte by byte: the bytes there are
      replaced, the parcel grows when the write runs past its end, nothing
      else changes. */
  function Overwrite(data: seq<Cell>, p: nat, cells: seq<Cell>): seq<Cell>
    decreases |cells|
  {
    if |cells| == 0 then data
    else Overwrite(Put(data, p, cells[0]), p + 1, cells[1..])
  }

  /** A write reaches up to its last byte, and never shrinks the parcel. */
  lemma {:induction false} OverwriteLength(data: seq<Cell>, p: nat, cells: seq<Cell>)
    ensures |Overwrite(data, p, cells)|
         == if |cells| == 0 || p + |cells| <= |data| then |data| else p + |cells|
    decreases |cells|
  {
    if |cells| > 0 {
      OverwriteLength(Put(data, p, cells[0]), p + 1, cells[1..]);
    }
  }

  /** Each cell after a write is the written one, the old one, or a gap byte. */
  lemma {:induction false} OverwriteCell(data: seq<Cell>, p: nat, cells: seq<Cell>, i: nat)
    requires i < |Overwrite(data, p, cells)|
    ensures Overwrite(data, p, cells)[i] == CellAfterWrite(data, p, cells, i)
    decreases |cells|
  {
    OverwriteLength(data, p, cells);
    if |cells| > 0 {
      var d' := Put(data, p, cells[0]);
      OverwriteLength(d', p + 1, cells[1..]);
      OverwriteCell(d', p + 1, cells[1..], i);
      if i < |d'| {
        PutCell(data, p, cells[0], i);
      }
    }
  }

  /** `cells` lie in `data` starting at position `p`. */
  predicate At(data: seq<Cell>, p: nat, cells: seq<Cell>)
    decreases |cells|
  {
    p + |cells| <= |data| && (|cells| == 0 || (data[p] == cells[0] && At(data, p + 1, cells[1..])))
  }

  /** `At` holds when every cell matches. */
  lemma {:induction false} AtIntro(data: seq<Cell>, p: nat, cells: seq<Cell>)
    requires p + |cells| <= |data|
    requires forall i | 0 <= i < |cells| :: data[p + i] == cells[i]
    ensures At(data, p, cells)
    decreases |cells|
  {
    if |cells| > 0 {
      forall i | 0 <= i < |cells| - 1
        ensures data[p + 1 + i] == cells[1..][i]
      {
        assert data[p + (i + 1)] == cells[i + 1];
      }
      AtIntro(data, p + 1, cells[1..]);
    }
  }

  /** Two consecutive writes are one write of both. */
  lemma {:induction false} OverwriteConcat(d: seq<Cell>, p: nat, a: seq<Cell>, b: seq<Cell>)
    ensures Overwrite(Overwrite(d, p, a), p + |a|, b) == Overwrite(d, p, a + b)
  {
    var l := Overwrite(Overwrite(d, p, a), p + |a|, b);
    var r := Overwrite(d, p, a + b);
    OverwriteLength(d, p, a);
    OverwriteLength(Overwrite(d, p, a), p + |a|, b);
    OverwriteLength(d, p, a + b);
    forall i | 0 <= i < |l|
      ensures l[i] == r[i]
    {
      if i < |Overwrite(d, p, a)| {
        OverwriteCell(d, p, a, i);
      }
      OverwriteCell(Overwrite(d, p, a), p + |a|, b, i);
      OverwriteCell(d, p, a + b, i);
    }
  }

  /** Back-patching a header of the same width keeps what follows it. */
  lemma {:induction false} OverwritePatch(d: seq<Cell>, p: nat, h: seq<Cell>, h': seq<Cell>, rest: seq<Cell>)
    requires |h| == |h'|
    ensures Overwrite(Overwrite(d, p, h + rest), p, h') == Overwrite(d, p, h' + rest)
  {
    var l := Overwrite(Overwrite(d, p, h + rest), p, h');
    var r := Overwrite(d, p, h' + rest);
    OverwriteLength(d, p, h + rest);
    OverwriteLength(Overwrite(d, p, h + rest), p, h');
    OverwriteLength(d, p, h' + rest);
    forall i | 0 <= i < |l|
      ensures l[i] == r[i]
    {
      OverwriteCell(d, p, h + rest, i);
      OverwriteCell(Overwrite(d, p, h + rest), p, h', i);
      OverwriteCell(d, p, h' + rest, i);
    }
  }

  /** What was written at `p` is found at `p`. */
  lemma {:induction false} AtOverwrite(d: seq<Cell>, p: nat, c: seq<Cell>)
    requires |c| > 0
    ensures At(Overwrite(d, p, c), p, c)
  {
    var r := Overwrite(d, p, c);
    OverwriteLength(d, p, c);
    forall i | 0 <= i < |c|
      ensures r[p + i] == c[i]
    {
      OverwriteCell(d, p, c, p + i);
    }
    AtIntro(r, p, c);
  }

  /** A run of cells splits into its two parts. */
  lemma {:induction false} AtSplit(data: seq<Cell>, p: nat, a: seq<Cell>, b: seq<Cell>)
    requires At(data, p, a + b)
    ensures At(data, p, a) && At(data, p + |a|, b)
    decreases |a|
  {
    if |a| == 0 {
      assert a + b == b;
    } else {
      assert (a + b)[1..] == a[1..] + b;
      AtSplit(data, p + 1, a[1..], b);
    }
  }

  /** The outcome of one read: the value and the cursor after it, or the
      exception thrown and the cursor at that moment. */
  datatype Step<+T> = Done(value: T, next: nat) | Threw(error: Exception, at: nat)

  /** `readInt`: past the end of the data it yields 0 and leaves the cursor
      where it is; the bytes of any other kind of value are malformed. */
  function ReadIntAt(data: seq<Cell>, p: nat): (r: Step<int32>)
    ensures r.Done? ==> p <= r.next
    ensures r.Threw? ==> r.at == p && r.error == MalformedParcel
  {
    if |data| < p + 4 then Done(0, p)
    else match data[p]
      case Start(IntV(i)) => Done(i, p + 4)
      case _ => Threw(MalformedParcel, p)
  }

  /** `readByte`: an int read, narrowed to its low byte. */
  function ReadByteAt(data: seq<Cell>, p: nat): (r: Step<int8>)
    ensures r.Done? ==> p <= r.next
    ensures r.Threw? ==> r.at == p
  {
    match ReadIntAt(data, p)
    case Done(i, q) => Done(Narrow(i), q)
    case Threw(e, q) => Threw(e, q)
  }

  /** `readString`: past the end of the data it yields null. */
  function ReadStringAt(data: seq<Cell>, p: nat): (r: Step<Option<string>>)
    ensures r.Done? ==> p <= r.next
    ensures r.Threw? ==> r.at == p
  {
    if |data| < p + 4 then Done(None, p)
    else match data[p]
      case Start(StrV(s)) =>
        if p + Width(StrV(s)) <= |data| then Done(s, p + Width(StrV(s)))
        else Threw(MalformedParcel, p)
      case _ => Threw(MalformedParcel, p)
  }

  /** A nested `createFromParcel`: only a whole nested body is accepted. */
  function ReadNestedAt(data: seq<Cell>, p: nat): (r: Step<Nested>)
    ensures r.Done? ==> p <= r.next
    ensures r.Threw? ==> r.at == p
  {
    if p < |data| && data[p].Start? && data[p].v.NestedV? && p + Width(data[p].v) <= |data|
    then Done(data[p].v.n, p + Width(data[p].v))
    else Threw(MalformedParcel, p)
  }

  /** `readTypedObject`: a marker int, then the body unless the marker is 0. */
  function ReadTypedAt(data: seq<Cell>, p: nat): (r: Step<Option<Nested>>)
    ensures r.Done? ==> p <= r.next
    ensures r.Threw? ==> p <= r.at
  {
    match ReadIntAt(data, p)
    case Threw(e, q) => Threw(e, q)
    case Done(marker, q) =>
      if marker == 0 then Done(None, q)
      else match ReadNestedAt(data, q)
        case Threw(e, q') => Threw(e, q')
        case Done(n, q') => Done(Some(n), q')
  }

  lemma {:induction false} ReadIntAtEncoded(data: seq<Cell>, p: nat, i: int32)
    requires At(data, p, Encode(IntV(i)))
    ensures ReadIntAt(data, p) == Done(i, p + 4)
  {
  }

  lemma {:induction false} ReadStringAtEncoded(data: seq<Cell>, p: nat, s: Option<string>)
    requires At(data, p, Encode(StrV(s)))
    ensures ReadStringAt(data, p) == Done(s, p + Width(StrV(s)))
  {
  }

  /** `readTypedObject` recovers what `writeTypedObject` wrote. */
  lemma {:induction false} ReadTypedAtEncoded(data: seq<Cell>, p: nat, o: Option<Nested>)
    requires At(data, p, EncodeTyped(o))
    ensures ReadTypedAt(data, p) == Done(o, p + |EncodeTyped(o)|)
  {
    match o
    case None =>
      ReadIntAtEncoded(data, p, 0);
    case Some(n) =>
      AtSplit(data, p, Encode(IntV(1)), Encode(NestedV(n)));
      ReadIntAtEncoded(data, p, 1);
  }

  /** A read step seen from the parcel: the result it returned and where it
      left the cursor. */
  predicate Returned<T(==)>(s: Step<T>, r: Result<T>, pos: nat)
  {
    match s
    case Done(v, q) => r == Ok(v) && pos == q
    case Threw(e, q) => r == Err(e) && pos == q
  }

  class Parcel {
    var data: seq<Cell>
    var pos: nat

    /** `Parcel.obtain()`: an empty parcel. */
    constructor Obtain()
      ensures data == [] && pos == 0
    {
      data, pos := [], 0;
    }

    method SetDataPosition(p: nat)
      modifies this
      ensures data == old(data) && pos == p
    {
      pos := p;
    }

    method Write(v: Value)
      modifies this
      ensures data == Overwrite(old(data), old(pos), Encode(v))
      ensures pos == old(pos) + Width(v)
    {
      data := Overwrite(data, pos, Encode(v));
      pos := pos + Width(v);
    }

    method WriteInt(i: int32)
      modifies this
      ensures data == Overwrite(old(data), old(pos), Encode(IntV(i)))
      ensures pos == old(pos) + 4
    {
      Write(IntV(i));
    }

    /** `writeByte` stores the byte widened to an int. */
    method WriteByte(b: int8)
      modifies this
      ensures data == Overwrite(old(data), old(pos), Encode(IntV(b)))
      ensures pos == old(pos) + 4
    {
      Write(IntV(b));
    }

    method WriteString(s: Option<string>)
      modifies this
      ensures data == Overwrite(old(data), old(pos), Encode(StrV(s)))
      ensures pos == old(pos) + Width(StrV(s))
    {
      Write(StrV(s));
    }

    method WriteTypedObject(o: Option<Nested>)
      modifies this
      ensures data == Overwrite(old(data), old(pos), EncodeTyped(o))
      ensures pos == old(pos) + |EncodeTyped(o)|
    {
      match o
      case None =>
        WriteInt(0);
      case Some(n) =>
        WriteInt(1);
        Write(NestedV(n));
        OverwriteConcat(old(data), old(pos), Encode(IntV(1)), Encode(NestedV(n)));
    }

    method ReadInt() returns (r: Result<int32>)
      modifies this
      ensures data == old(data)
      ensures Returned(ReadIntAt(old(data), old(pos)), r, pos)
    {
      var s := ReadIntAt(data, pos);
      r := if s.Done? then Ok(s.value) else Err(s.error);
      pos := if s.Done? then s.next else s.at;
    }

    method ReadByte() returns (r: Result<int8>)
      modifies this
      ensures data == old(data)
      ensures Returned(ReadByteAt(old(data), old(pos)), r, pos)
    {
      var i := ReadInt();
      r := if i.Ok? then Ok(Narrow(i.value)) else Err(i.error);
    }

    method ReadString() returns (r: Result<Option<string>>)
      modifies this
      ensures data == old(data)
      ensures Returned(ReadStringAt(old(data), old(pos)), r, pos)
    {
      var s := ReadStringAt(data, pos);
      r := if s.Done? then Ok(s.value) else Err(s.error);
      pos := if s.Done? then s.next else s.at;
    }

    method ReadTypedObject() returns (r: Result<Option<Nested>>)
      modifies this
      ensures data == old(data)
      ensures Returned(ReadTypedAt(old(data), old(pos)), r, pos)
    {
      var marker := ReadInt();
      if marker.Err? {
        return Err(marker.error);
      }
      if marker.value == 0 {
        return Ok(None);
      }
      var s := ReadNestedAt(data, pos);
      r := if s.Done? then Ok(Some(s.value)) else Err(s.error);
      pos := if s.Done? then s.next else s.at;
    }
  }
}
