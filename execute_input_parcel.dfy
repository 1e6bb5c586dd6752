/** The parcelable `ExecuteInputParcel` of on-device personalization: a
    non-null package name and optional serialized app params, whose presence
    is announced by bit 0x2 of a leading flag byte; and its one-shot
    `Builder`. */
module Personalization {
  import opened Base
  import opened Parcels

  /** An `ExecuteInputParcel`. The package name is never null: both
      constructors validate it. */
  datatype ExecuteInputParcel = ExecuteInputParcel(appPackageName: string, serializedAppParams: Option<Nested>)

  /** The field constructor: `NonNull` validation of the package name. */
  function New(appPackageName: Option<string>, serializedAppParams: Option<Nested>): (r: Result<ExecuteInputParcel>)
    ensures r.Err? <==> appPackageName.None?
    ensures r.Err? ==> r.error == NullPointer
    ensures r.Ok? ==> (r.value.appPackageName == appPackageName.value
                       && r.value.serializedAppParams == serializedAppParams)
  {
    match appPackageName
    case None => Err(NullPointer)
    case Some(name) => Ok(ExecuteInputParcel(name, serializedAppParams))
  }

  /** The bit of the flag byte that announces the serialized app params. */
  const PARAMS_PRESENT: nat := 1

  /** The flag byte `writeToParcel` computes: 0, with 0x2 or-ed in when the
      params are present. */
  function Flags(x: ExecuteInputParcel): int8
  {
    if x.serializedAppParams.Some? then 0x2 else 0
  }

  lemma {:induction false} Pow2AtLeast4(k: nat)
    requires k >= 2
    ensures Pow2(k) >= 4
  {
    if k > 2 {
      Pow2AtLeast4(k - 1);
    }
  }

  /** Bit 0x2 of the flag byte is set exactly when the params are present,
      and no other bit is ever set. */
  lemma {:induction false} FlagsBits(x: ExecuteInputParcel, k: nat)
    ensures BitSet(Flags(x), PARAMS_PRESENT) <==> x.serializedAppParams.Some?
    ensures k != PARAMS_PRESENT ==> !BitSet(Flags(x), k)
  {
    if k >= 2 {
      Pow2AtLeast4(k);
    }
  }

  /** What `writeToParcel` writes: the flag byte (as an int), the package
      name, then the params only when they are present. */
  function Encoding(x: ExecuteInputParcel): (cells: seq<Cell>)
    ensures |cells| == 4 + Width(StrV(Some(x.appPackageName))) + |ParamsCells(x)|
  {
    Encode(IntV(Flags(x))) + Encode(StrV(Some(x.appPackageName))) + ParamsCells(x)
  }

  /** The params as `writeToParcel` writes them: nothing when absent. */
  function ParamsCells(x: ExecuteInputParcel): seq<Cell>
  {
    if x.serializedAppParams.Some? then EncodeTyped(x.serializedAppParams) else []
  }

  /** The params read of the `Parcel` constructor: `readTypedObject` when
      bit 0x2 of the flag byte is set, null without reading otherwise. */
  function ReadParamsAt(data: seq<Cell>, p: nat, flg: int8): (r: Step<Option<Nested>>)
    ensures !BitSet(flg, PARAMS_PRESENT) ==> r == Done(None, p)
  {
    if BitSet(flg, PARAMS_PRESENT) then ReadTypedAt(data, p) else Done(None, p)
  }

  /** The `Parcel` constructor on the cells `data` with the cursor at `p`:
      the flag byte, the name, the params when announced, then `NonNull`
      validation of the name. */
  function DecodeAt(data: seq<Cell>, p: nat): (r: Step<ExecuteInputParcel>)
  {
    match ReadByteAt(data, p)
    case Threw(e, q) => Threw(e, q)
    case Done(flg, p1) => DecodeName(data, p1, flg)
  }

  /** The `Parcel` constructor after the flag byte. */
  function DecodeName(data: seq<Cell>, p: nat, flg: int8): (r: Step<ExecuteInputParcel>)
  {
    match ReadStringAt(data, p)
    case Threw(e, q) => Threw(e, q)
    case Done(name, p2) => DecodeParams(data, p2, flg, name)
  }

  /** The `Parcel` constructor after the name. */
  function DecodeParams(data: seq<Cell>, p: nat, flg: int8, name: Option<string>): (r: Step<ExecuteInputParcel>)
  {
    match ReadParamsAt(data, p, flg)
    case Threw(e, q) => Threw(e, q)
    case Done(params, p3) =>
      match New(name, params)
      case Err(e) => Threw(e, p3)
      case Ok(v) => Done(v, p3)
  }

  /** Without bit 0x2 the params are not read: they are null and the cursor
      stops right after the name. */
  lemma {:induction false} DecodeWithoutParams(data: seq<Cell>, p: nat, flg: int8, p1: nat, name: string, p2: nat)
    requires ReadByteAt(data, p) == Done(flg, p1) && !BitSet(flg, PARAMS_PRESENT)
    requires ReadStringAt(data, p1) == Done(Some(name), p2)
    ensures DecodeAt(data, p) == Done(ExecuteInputParcel(name, None), p2)
  {
  }

  /** With bit 0x2 the params are whatever `readTypedObject` yields. */
  lemma {:induction false} DecodeWithParams(data: seq<Cell>, p: nat, flg: int8, p1: nat, name: string, p2: nat)
    requires ReadByteAt(data, p) == Done(flg, p1) && BitSet(flg, PARAMS_PRESENT)
    requires ReadStringAt(data, p1) == Done(Some(name), p2)
    ensures DecodeAt(data, p)
         == match ReadTypedAt(data, p2)
            case Threw(e, q) => Threw(e, q)
            case Done(o, p3) => Done(ExecuteInputParcel(name, o), p3)
  {
  }

  /** A null package name in the parcel is rejected: either the params read
      throws first, or the validation throws `NullPointerException`. */
  lemma {:induction false} DecodeRejectsNullName(data: seq<Cell>, p: nat, flg: int8, p1: nat, p2: nat)
    requires ReadByteAt(data, p) == Done(flg, p1)
    requires ReadStringAt(data, p1) == Done(None, p2)
    ensures DecodeAt(data, p).Threw?
    ensures ReadParamsAt(data, p2, flg).Done? ==> DecodeAt(data, p).error == NullPointer
  {
  }

  /** The three cells runs of an encoding, each found where it was written. */
  lemma {:induction false} EncodingParts(data: seq<Cell>, p: nat, x: ExecuteInputParcel)
    requires At(data, p, Encoding(x))
    ensures At(data, p, Encode(IntV(Flags(x))))
    ensures At(data, p + 4, Encode(StrV(Some(x.appPackageName))))
    ensures var p2 := p + 4 + Width(StrV(Some(x.appPackageName)));
      && At(data, p2, ParamsCells(x))
      && p + |Encoding(x)| == p2 + |ParamsCells(x)|
  {
    var cf, cn, cp := Encode(IntV(Flags(x))), Encode(StrV(Some(x.appPackageName))), ParamsCells(x);
    assert Encoding(x) == cf + (cn + cp);
    AtSplit(data, p, cf, cn + cp);
    AtSplit(data, p + 4, cn, cp);
  }

  /** The three reads of the `Parcel` constructor, each returning its field,
      make the whole value. */
  lemma {:induction false} DecodeSteps(data: seq<Cell>, p: nat, x: ExecuteInputParcel, p2: nat, end: nat)
    requires ReadByteAt(data, p) == Done(Flags(x), p + 4)
    requires ReadStringAt(data, p + 4) == Done(Some(x.appPackageName), p2)
    requires ReadParamsAt(data, p2, Flags(x)) == Done(x.serializedAppParams, end)
    ensures DecodeAt(data, p) == Done(x, end)
  {
  }

  /** The decoder recovers an encoded value and stops right after it. */
  lemma {:induction false} DecodeEncoded(data: seq<Cell>, p: nat, x: ExecuteInputParcel)
    requires At(data, p, Encoding(x))
    ensures DecodeAt(data, p) == Done(x, p + |Encoding(x)|)
  {
    var name, params := x.appPackageName, x.serializedAppParams;
    var p2 := p + 4 + Width(StrV(Some(name)));
    EncodingParts(data, p, x);
    ReadIntAtEncoded(data, p, Flags(x));
    ReadStringAtEncoded(data, p + 4, Some(name));
    FlagsBits(x, PARAMS_PRESENT);
    if params.Some? {
      ReadTypedAtEncoded(data, p2, params);
    }
    DecodeSteps(data, p, x, p2, p + |Encoding(x)|);
  }

  /** Round trip: reading back what `writeToParcel` wrote gives both fields. */
  lemma {:induction false} RoundTrip(d: seq<Cell>, p: nat, x: ExecuteInputParcel)
    ensures DecodeAt(Overwrite(d, p, Encoding(x)), p) == Done(x, p + |Encoding(x)|)
  {
    AtOverwrite(d, p, Encoding(x));
    DecodeEncoded(Overwrite(d, p, Encoding(x)), p, x);
  }

  /** `writeToParcel`. */
  method WriteToParcel(x: ExecuteInputParcel, dest: Parcel)
    modifies dest
    ensures dest.data == Overwrite(old(dest.data), old(dest.pos), Encoding(x))
    ensures dest.pos == old(dest.pos) + |Encoding(x)|
  {
    ghost var d, start := dest.data, dest.pos;
    var flg: int8 := 0;
    if x.serializedAppParams.Some? {
      flg := 0x2;
    }
    dest.WriteByte(flg);
    dest.WriteString(Some(x.appPackageName));
    ghost var cf, cn := Encode(IntV(flg)), Encode(StrV(Some(x.appPackageName)));
    OverwriteConcat(d, start, cf, cn);
    if x.serializedAppParams.Some? {
      dest.WriteTypedObject(x.serializedAppParams);
      OverwriteConcat(d, start, cf + cn, EncodeTyped(x.serializedAppParams));
    } else {
      assert Encoding(x) == cf + cn;
    }
  }

  /** `CREATOR.createFromParcel`: the `Parcel` constructor. */
  method CreateFromParcel(source: Parcel) returns (r: Result<ExecuteInputParcel>)
    modifies source
    ensures source.data == old(source.data)
    ensures Returned(DecodeAt(old(source.data), old(source.pos)), r, source.pos)
  {
    var flg := source.ReadByte();
    if flg.Err? {
      return Err(flg.error);
    }
    var appPackageName := source.ReadString();
    if appPackageName.Err? {
      return Err(appPackageName.error);
    }
    var serializedAppParams: Result<Option<Nested>> := Ok(None);
    if BitSet(flg.value, PARAMS_PRESENT) {
      serializedAppParams := source.ReadTypedObject();
      if serializedAppParams.Err? {
        return Err(serializedAppParams.error);
      }
    }
    r := New(appPackageName.value, serializedAppParams.value);
  }

  /** Bits of `mBuilderFieldsSet`: the package name was set, the params were
      set, the builder was used. */
  const NAME_SET: Bit := 0
  const PARAMS_SET: Bit := 1
  const USED: Bit := 2

  /** The state of a `Builder`; `fieldsSet` holds the one bits of
      `mBuilderFieldsSet`. */
  datatype BuilderState = BuilderState(appPackageName: Option<string>, serializedAppParams: Option<Nested>,
                                       fieldsSet: set<Bit>)

  const FreshBuilder := BuilderState(None, None, {})

  /** `checkNotUsed`. */
  function NotUsedCheck(s: BuilderState): (thrown: Option<Exception>)
    ensures thrown.Some? <==> USED in s.fieldsSet
    ensures thrown.Some? ==> thrown.value == IllegalState
  {
    if USED in s.fieldsSet then Some(IllegalState) else None
  }

  /** A builder call: the state after it, and the value it returned or the
      exception it threw. */
  datatype Call<+T> = Call(state: BuilderState, result: Result<T>)

  /** `setAppPackageName`. */
  function WithAppPackageName(s: BuilderState, value: Option<string>): Call<()>
  {
    match NotUsedCheck(s)
    case Some(e) => Call(s, Err(e))
    case None => Call(s.(fieldsSet := s.fieldsSet + {NAME_SET}, appPackageName := value), Ok(()))
  }

  /** `setSerializedAppParams`. */
  function WithSerializedAppParams(s: BuilderState, value: Option<Nested>): Call<()>
  {
    match NotUsedCheck(s)
    case Some(e) => Call(s, Err(e))
    case None => Call(s.(fieldsSet := s.fieldsSet + {PARAMS_SET}, serializedAppParams := value), Ok(()))
  }

  /** `build`: marks the builder used, defaults the unset fields into the
      builder, then calls the validating constructor. */
  function Built(s: BuilderState): Call<ExecuteInputParcel>
  {
    match NotUsedCheck(s)
    case Some(e) => Call(s, Err(e))
    case None =>
      var bits := s.fieldsSet + {USED};
      var name := if NAME_SET !in bits then Some("") else s.appPackageName;
      var params := if PARAMS_SET !in bits then None else s.serializedAppParams;
      Call(BuilderState(name, params, bits), New(name, params))
  }

  /** Each setter sets its own bit and its own field and changes nothing
      else; on a used builder it throws and changes nothing. */
  lemma {:induction false} SettersTouchOnlyTheirBit(s: BuilderState, name: Option<string>, params: Option<Nested>)
    ensures var c := WithAppPackageName(s, name);
      if USED in s.fieldsSet then c == Call(s, Err(IllegalState))
      else (c.result.Ok? && c.state.fieldsSet == s.fieldsSet + {NAME_SET}
            && c.state.appPackageName == name && c.state.serializedAppParams == s.serializedAppParams)
    ensures var c := WithSerializedAppParams(s, params);
      if USED in s.fieldsSet then c == Call(s, Err(IllegalState))
      else (c.result.Ok? && c.state.fieldsSet == s.fieldsSet + {PARAMS_SET}
            && c.state.serializedAppParams == params && c.state.appPackageName == s.appPackageName)
  {
  }

  /** `build` on an unused builder yields the set values, "" for an unset
      name and null for unset params; it fails only on a name explicitly
      set to null, and it marks the builder used whatever its outcome. */
  lemma {:induction false} BuildDefaults(s: BuilderState)
    requires USED !in s.fieldsSet
    ensures USED in Built(s).state.fieldsSet
    ensures Built(s).result.Err? <==> NAME_SET in s.fieldsSet && s.appPackageName.None?
    ensures Built(s).result.Err? ==> Built(s).result.error == NullPointer
    ensures Built(s).result.Ok? ==>
      Built(s).result.value
        == ExecuteInputParcel(if NAME_SET in s.fieldsSet then s.appPackageName.value else "",
                              if PARAMS_SET in s.fieldsSet then s.serializedAppParams else None)
  {
  }

  /** One-shot: after `build`, every setter and a second `build` throw
      `IllegalStateException` and leave the builder as it is. */
  lemma {:induction false} BuilderIsOneShot(s: BuilderState, name: Option<string>, params: Option<Nested>)
    ensures var t := Built(s).state;
      WithAppPackageName(t, name) == Call(t, Err(IllegalState))
      && WithSerializedAppParams(t, params) == Call(t, Err(IllegalState))
      && Built(t) == Call(t, Err(IllegalState))
  {
  }

  /** A fresh builder, given a name and params, builds exactly them. */
  lemma {:induction false} BuildWhatWasSet(name: string, params: Nested)
    ensures var s1 := WithAppPackageName(FreshBuilder, Some(name)).state;
      var s2 := WithSerializedAppParams(s1, Some(params)).state;
      Built(s2).result == Ok(ExecuteInputParcel(name, Some(params)))
  {
  }

  /** `Builder`. */
  class Builder {
    var appPackageName: Option<string>
    var serializedAppParams: Option<Nested>
    var fieldsSet: set<Bit>

    function State(): BuilderState
      reads this
    {
      BuilderState(appPackageName, serializedAppParams, fieldsSet)
    }

    constructor ()
      ensures State() == FreshBuilder
    {
      appPackageName, serializedAppParams, fieldsSet := None, None, {};
    }

    method CheckNotUsed() returns (thrown: Option<Exception>)
      ensures thrown == NotUsedCheck(State())
    {
      if USED in fieldsSet {
        return Some(IllegalState);
      }
      return None;
    }

    method SetAppPackageName(value: Option<string>) returns (r: Result<()>)
      modifies this
      ensures Call(State(), r) == WithAppPackageName(old(State()), value)
    {
      var thrown := CheckNotUsed();
      if thrown.Some? {
        return Err(thrown.value);
      }
      fieldsSet := fieldsSet + {NAME_SET};
      appPackageName := value;
      return Ok(());
    }

    method SetSerializedAppParams(value: Option<Nested>) returns (r: Result<()>)
      modifies this
      ensures Call(State(), r) == WithSerializedAppParams(old(State()), value)
    {
      var thrown := CheckNotUsed();
      if thrown.Some? {
        return Err(thrown.value);
      }
      fieldsSet := fieldsSet + {PARAMS_SET};
      serializedAppParams := value;
      return Ok(());
    }

    method Build() returns (r: Result<ExecuteInputParcel>)
      modifies this
      ensures Call(State(), r) == Built(old(State()))
    {
      var thrown := CheckNotUsed();
      if thrown.Some? {
        return Err(thrown.value);
      }
      fieldsSet := fieldsSet + {USED};
      if NAME_SET !in fieldsSet {
        appPackageName := Some("");
      }
      if PARAMS_SET !in fieldsSet {
        serializedAppParams := None;
      }
      r := New(appPackageName, serializedAppParams);
    }
  }
}
