/** The pending-request table of `RadioConfig`: a `SparseArray` from serial to
    `RILRequest`, kept in ascending order of serial as `SparseArray` keeps its
    keys. */
module RequestTable {
  import opened Base

  /** The request codes `RadioConfig` issues; `Other` stands for any code that
      is none of them. */
  datatype RequestKind =
    | RequestGetPhoneCapability
    | RequestGetSlotStatus
    | RequestSetLogicalToPhysicalSlotMapping
    | RequestSetPreferredDataModem
    | RequestSwitchDualSimConfig
    | RequestGetHalDeviceCapabilities
    | Other(code: int32)

  /** The identity of a caller's completion `Message`. */
  type MessageId = nat

  /** A `RILRequest`: its serial, its request code and the message that
      receives its completion, if any. */
  datatype Request = Request(serial: int32, kind: RequestKind, result: Option<MessageId>)

  /** `SparseArray` keeps one entry per key, in ascending key order. */
  predicate Sorted(t: seq<Request>)
  {
    forall i, j | 0 <= i < j < |t| :: t[i].serial < t[j].serial
  }

  /** `SparseArray.get`: the entry under `serial`, or null. */
  function Get(t: seq<Request>, serial: int): (r: Option<Request>)
    ensures r.Some? ==> r.value in t && r.value.serial == serial
    ensures r.None? ==> forall i | 0 <= i < |t| :: t[i].serial != serial
  {
    if |t| == 0 then None
    else if t[0].serial == serial then Some(t[0])
    else Get(t[1..], serial)
  }

  /** `SparseArray.append` (a `put` whenever the key is not above the last
      key): the entry under `rr.serial` becomes `rr`, replacing an entry with
      the same serial, in key order. */
  function Put(t: seq<Request>, rr: Request): (r: seq<Request>)
    ensures forall x | x in r :: x in t || x == rr
    ensures rr in r
  {
    if |t| == 0 then [rr]
    else if rr.serial < t[0].serial then [rr] + t
    else if rr.serial == t[0].serial then [rr] + t[1..]
    else [t[0]] + Put(t[1..], rr)
  }

  /** `SparseArray.remove`: drops the entry under `serial`, if any. */
  function Remove(t: seq<Request>, serial: int): (r: seq<Request>)
    ensures forall x | x in r :: x in t
  {
    if |t| == 0 then []
    else if t[0].serial == serial then t[1..]
    else [t[0]] + Remove(t[1..], serial)
  }

  lemma {:induction false} SortedTail(t: seq<Request>)
    requires Sorted(t) && |t| > 0
    ensures Sorted(t[1..])
    ensures forall x | x in t[1..] :: t[0].serial < x.serial
  {
  }

  /** Inserting keeps the table in key order with one entry per key. */
  lemma {:induction false} PutSorted(t: seq<Request>, rr: Request)
    requires Sorted(t)
    ensures Sorted(Put(t, rr))
  {
    if |t| > 0 && rr.serial > t[0].serial {
      SortedTail(t);
      PutSorted(t[1..], rr);
      var r := Put(t[1..], rr);
      assert forall x | x in r :: t[0].serial < x.serial;
      assert Put(t, rr) == [t[0]] + r;
    }
  }

  /** After inserting `rr`, its serial finds `rr` and every other serial
      finds what it found before. */
  lemma {:induction false} PutGet(t: seq<Request>, rr: Request, serial: int)
    ensures Get(Put(t, rr), serial) == if serial == rr.serial then Some(rr) else Get(t, serial)
  {
    if |t| > 0 && rr.serial > t[0].serial {
      PutGet(t[1..], rr, serial);
      assert Put(t, rr)[1..] == Put(t[1..], rr);
    } else if |t| > 0 && rr.serial == t[0].serial {
      assert Put(t, rr)[1..] == t[1..];
    } else if |t| > 0 {
      assert Put(t, rr)[1..] == t;
    }
  }

  /** Removing keeps the table in key order. */
  lemma {:induction false} RemoveSorted(t: seq<Request>, serial: int)
    requires Sorted(t)
    ensures Sorted(Remove(t, serial))
  {
    if |t| > 0 && t[0].serial != serial {
      SortedTail(t);
      RemoveSorted(t[1..], serial);
      var r := Remove(t[1..], serial);
      assert forall x | x in r :: t[0].serial < x.serial;
      assert Remove(t, serial) == [t[0]] + r;
    }
  }

  /** After removing `serial`, it finds nothing and every other serial finds
      what it found before. */
  lemma {:induction false} RemoveGet(t: seq<Request>, serial: int, other: int)
    requires Sorted(t)
    ensures Get(Remove(t, serial), other) == if other == serial then None else Get(t, other)
  {
    if |t| > 0 {
      SortedTail(t);
      if t[0].serial != serial {
        RemoveGet(t[1..], serial, other);
        assert Remove(t, serial)[1..] == Remove(t[1..], serial);
      }
    }
  }

  /** Removing a serial that is not in the table leaves the table as it is. */
  lemma {:induction false} RemoveAbsent(t: seq<Request>, serial: int)
    requires Get(t, serial).None?
    ensures Remove(t, serial) == t
  {
    if |t| > 0 {
      RemoveAbsent(t[1..], serial);
    }
  }

  /** Removing a serial that is in the table drops exactly one entry. */
  lemma {:induction false} RemovePresent(t: seq<Request>, serial: int)
    requires Get(t, serial).Some?
    ensures |Remove(t, serial)| == |t| - 1
  {
    if t[0].serial != serial {
      RemovePresent(t[1..], serial);
    }
  }
}
