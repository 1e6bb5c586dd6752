/** `RadioConfig` as an object: its fields are updated in place by the
    operations, and each operation is proved to leave the state the pure
    state machine of `RadioConfigSpec` describes. */
module Telephony {
  import opened Base
  import opened RequestTable
  import opened RadioConfigSpec

  /** `primitiveArrayToArrayList`: the array's elements, in order. */
  method PrimitiveArrayToArrayList(arr: array<int32>) returns (list: seq<int32>)
    ensures list == arr[..]
  {
    list := [];
    for i := 0 to arr.Length
      invariant list == arr[..i]
    {
      list := list + [arr[i]];
    }
  }

  class RadioConfig {
    const dataCapable: bool                          // mIsMobileNetworkSupported
    const deviceNrCapabilities: seq<NrCapability>    // mDeviceNrCapabilities
    var proxy: Option<Proxy>                         // mRadioConfigProxy
    var version: HalVersion                          // mRadioConfigVersion
    var cookie: int                                  // mRadioConfigProxyCookie
    var requests: seq<Request>                       // mRequestList
    var events: seq<Event>                           // completions delivered so far
    var calls: seq<HalCall>                          // HAL calls made so far

    function State(): ConfigState
      reads this
    {
      ConfigState(dataCapable, proxy, version, cookie, requests, events, calls)
    }

    /** The private constructor: no proxy yet, an empty table, and the NR
        capabilities the resources declare. */
    constructor(dataCapable: bool, is5gStandalone: bool, is5gNonStandalone: bool)
      ensures State() == Initial(dataCapable)
      ensures deviceNrCapabilities == DeviceNrCapabilities(is5gStandalone, is5gNonStandalone)
    {
      this.dataCapable := dataCapable;
      var list: seq<NrCapability> := [];
      if is5gNonStandalone {
        list := list + [Nsa];
      }
      if is5gStandalone {
        list := list + [Sa];
      }
      deviceNrCapabilities := list;
      proxy := None;
      version := UNKNOWN;
      cookie := 0;
      requests := [];
      events := [];
      calls := [];
    }

    /** `AsyncResult.forMessage` and `sendToTarget` on a message, if any. */
    method SendReply(result: Option<MessageId>, viaCopy: bool, error: RilError)
      modifies this
      ensures State() == Reply(old(State()), result, viaCopy, error)
    {
      if result.Some? {
        events := events + [Replied(result.value, viaCopy, error)];
      }
    }

    method HandleMessage(what: int, messageCookie: int, svc: Service)
      modifies this
      ensures State() == RadioConfigSpec.HandleMessage(old(State()), what, messageCookie, svc)
    {
      if what == EVENT_SERVICE_DEAD && messageCookie == cookie {
        ResetProxyAndRequestList(svc);
      }
    }

    method ClearRequestList(error: RilError)
      modifies this
      ensures State() == RadioConfigSpec.ClearRequestList(old(State()), error)
    {
      var pending := requests;
      for i := 0 to |pending|
        invariant State() == old(State()).(events := old(events) + FailAll(pending[..i], error))
      {
        FailAllSnoc(pending[..i], pending[i], error);
        assert pending[..i + 1] == pending[..i] + [pending[i]];
        events := events + [RequestFailed(pending[i], error)];
      }
      assert pending[..|pending|] == pending;
      requests := [];
    }

    method ResetProxyAndRequestList(svc: Service)
      modifies this
      ensures State() == Reset(old(State()), svc)
    {
      proxy := None;
      cookie := cookie + 1;
      ClearRequestList(RadioNotAvailable);
      var _ := GetRadioConfigProxy(None, false, svc);
    }

    /** `getRadioConfigProxy(result)`; `viaCopy` says whether `result` is a
        copy of the caller's message. */
    method GetRadioConfigProxy(result: Option<MessageId>, viaCopy: bool, svc: Service) returns (p: Option<Proxy>)
      modifies this
      ensures Acquired(State(), p) == AcquireProxy(old(State()), result, viaCopy, svc)
    {
      if !dataCapable {
        SendReply(result, viaCopy, RadioNotAvailable);
        return None;
      }
      if proxy.Some? {
        return proxy;
      }
      UpdateRadioConfigProxy(svc);
      if proxy.None? {
        SendReply(result, viaCopy, RadioNotAvailable);
      }
      return proxy;
    }

    /** One `getService` attempt; `stopped` when the outer `catch` returns. */
    method TryService(v: HalVersion, lookup: Lookup) returns (stopped: bool)
      modifies this
      ensures var p := TryVersion(old(State()), v, lookup); State() == p.state && stopped == p.Stop?
    {
      stopped := false;
      match lookup
      case Found(x) =>
        proxy := Some(x);
        version := v;
      case ReturnedNull =>
        proxy := None;
        version := v;
      case NotFound =>
      case Failed =>
        proxy := None;
        stopped := true;
    }

    method UpdateRadioConfigProxy(svc: Service)
      modifies this
      ensures State() == UpdateProxy(old(State()), svc)
    {
      var stopped := TryService(V1_3, svc.lookup13);
      if !stopped && proxy.None? {
        stopped := TryService(V1_1, svc.lookup11);
      }
      if !stopped && proxy.None? {
        stopped := TryService(V1_0, svc.lookup10);
      }
      if stopped || proxy.None? {
        return;
      }
      cookie := cookie + 1;
      if svc.link.Throws? || svc.setResponse.Throws? {
        proxy := None;
      }
    }

    method ObtainRequest(serial: int32, kind: RequestKind, result: Option<MessageId>) returns (rr: Request)
      modifies this
      ensures rr == Request(serial, kind, result)
      ensures State() == RadioConfigSpec.ObtainRequest(old(State()), serial, kind, result)
    {
      rr := Request(serial, kind, result);
      requests := Put(requests, rr);
    }

    method FindAndRemoveRequestFromList(serial: int32) returns (rr: Option<Request>)
      modifies this
      ensures Match(State(), rr) == FindAndRemove(old(State()), serial)
    {
      rr := Get(requests, serial);
      if rr.Some? {
        requests := Remove(requests, serial);
      }
    }

    /** `processResponse` and `processResponse_1_6`. */
    method ProcessResponse(info: ResponseInfo) returns (rr: Option<Request>)
      modifies this
      ensures Match(State(), rr) == RadioConfigSpec.ProcessResponse(old(State()), info)
    {
      rr := FindAndRemoveRequestFromList(info.serial);
    }

    /** `obtainRequest` and the `try` around the remote call that every
        wrapper shares; `args` is null when computing them throws. */
    method IssueRequest(p: Proxy, kind: RequestKind, result: Option<MessageId>, serial: int32,
                        args: Option<seq<int>>, call: Remote, reprobe: Service)
      modifies this
      ensures State() == Issue(old(State()), p, kind, result, serial, args, call, reprobe)
    {
      var _ := ObtainRequest(serial, kind, result);
      if args.None? {
        ResetProxyAndRequestList(reprobe);
        return;
      }
      calls := calls + [HalCall(p, kind, serial, args.value)];
      if call.Throws? {
        ResetProxyAndRequestList(reprobe);
      }
    }

    method GetSimSlotsStatus(result: Option<MessageId>, serial: int32, svc: Service, call: Remote, reprobe: Service)
      modifies this
      ensures State() == RadioConfigSpec.GetSimSlotsStatus(old(State()), result, serial, svc, call, reprobe)
    {
      var p := GetRadioConfigProxy(result, false, svc);
      if p.Some? {
        IssueRequest(p.value, RequestGetSlotStatus, result, serial, Some([]), call, reprobe);
      }
    }

    method IsSetPreferredDataCommandSupported(svc: Service) returns (supported: bool)
      modifies this
      ensures Answer(State(), supported) == RadioConfigSpec.IsSetPreferredDataCommandSupported(old(State()), svc)
    {
      var p := GetRadioConfigProxy(None, false, svc);
      supported := p.Some? && GreaterOrEqual(version, V1_1);
    }

    method SetPreferredDataModem(modemId: int32, result: Option<MessageId>, serial: int32,
                                 svc: Service, call: Remote, reprobe: Service)
      modifies this
      ensures State() == RadioConfigSpec.SetPreferredDataModem(old(State()), modemId, result, serial, svc, call, reprobe)
    {
      var supported := IsSetPreferredDataCommandSupported(svc);
      if !supported {
        SendReply(result, false, RequestNotSupported);
        return;
      }
      IssueRequest(proxy.value, RequestSetPreferredDataModem, result, serial, Some([Narrow(modemId)]), call, reprobe);
    }

    method GetPhoneCapability(result: Option<MessageId>, serial: int32, svc: Service, call: Remote, reprobe: Service)
      modifies this
      ensures State() == RadioConfigSpec.GetPhoneCapability(old(State()), result, serial, svc, call, reprobe)
    {
      var p := GetRadioConfigProxy(None, false, svc);
      if p.None? || Less(version, V1_1) {
        SendReply(result, false, RequestNotSupported);
        return;
      }
      IssueRequest(p.value, RequestGetPhoneCapability, result, serial, Some([]), call, reprobe);
    }

    /** `setSimSlotsMapping`: a null array makes the conversion throw inside
        the `try`. */
    method SetSimSlotsMapping(physicalSlots: array?<int32>, result: Option<MessageId>, serial: int32,
                              svc: Service, call: Remote, reprobe: Service)
      modifies this
      ensures State() == RadioConfigSpec.SetSimSlotsMapping(old(State()),
                           if physicalSlots == null then None else Some(physicalSlots[..]),
                           result, serial, svc, call, reprobe)
    {
      var p := GetRadioConfigProxy(result, false, svc);
      if p.Some? {
        var args: Option<seq<int>> := None;
        if physicalSlots != null {
          var list := PrimitiveArrayToArrayList(physicalSlots);
          args := Some(list);
        }
        IssueRequest(p.value, RequestSetLogicalToPhysicalSlotMapping, result, serial, args, call, reprobe);
      }
    }

    method SetModemsConfig(numOfLiveModems: int32, result: Option<MessageId>, serial: int32,
                           svc: Service, call: Remote, reprobe: Service)
      modifies this
      ensures State() == RadioConfigSpec.SetModemsConfig(old(State()), numOfLiveModems, result, serial, svc, call, reprobe)
    {
      var p := GetRadioConfigProxy(result, false, svc);
      if p.Some? && GreaterOrEqual(version, V1_1) {
        IssueRequest(p.value, RequestSwitchDualSimConfig, result, serial, Some([Narrow(numOfLiveModems)]), call, reprobe);
      }
    }

    /** `getHalDeviceCapabilities`; `thrown` is the exception that escapes. */
    method GetHalDeviceCapabilities(result: Option<MessageId>, serial: int32, svc: Service, call: Remote, reprobe: Service)
      returns (thrown: Option<Exception>)
      modifies this
      ensures Outcome(State(), thrown) == RadioConfigSpec.GetHalDeviceCapabilities(old(State()), result, serial, svc, call, reprobe)
    {
      if result.None? {
        return Some(NullPointer);
      }
      var p := GetRadioConfigProxy(result, true, svc);
      if p.Some? && GreaterOrEqual(version, V1_3) {
        version := V1_3;
        IssueRequest(p.value, RequestGetHalDeviceCapabilities, result, serial, Some([]), call, reprobe);
      } else {
        SendReply(result, false, RequestNotSupported);
      }
      return None;
    }
  }
}
