# RadioConfig, MicrophoneInfoFw and ExecuteInputParcel in Dafny

This project models three pieces of Android platform code and proves properties of the models.

- **`RadioConfig`** (telephony) is a session manager that talks to the `IRadioConfig` HAL service. It:
  - keeps a cached service proxy, its HAL version and a death-notification cookie;
  - keeps a table of pending requests, a `SparseArray` keyed by serial;
  - probes for the newest service version it can find (1.3, then 1.1, then 1.0);
  - resets itself, failing every pending request, when the service dies or a remote call throws;
  - gates each wrapper on the HAL version.

  The model has two layers:
  - `RadioConfigSpec` is the state machine as pure functions of a `ConfigState`.
  - `Telephony.RadioConfig` is a class whose fields are updated in place. Each of its methods is proved to produce the state that the pure function describes.

  The remote side is an oracle. Each operation receives a `Service` that says what every `getService` lookup, `linkToDeath` and `setResponseFunctions` call will do. It also receives a `Remote` that says whether the HAL call itself throws. Completions delivered to callers and HAL calls made are recorded in the state as append-only logs.
- **`MicrophoneInfoFw`** (media) is an AIDL parcelable.
  - Its writer back-patches a 4-byte size header.
  - Its reader is truncation-tolerant. It rejects sizes below 4, reads the fields in declaration order only while the declared size is not used up, rejects offset overflow, and always repositions the cursor to `start + size`.
- **`ExecuteInputParcel`** (on-device personalization) is a codegen data class with two parts:
  - a presence-flag codec, where bit `0x2` of a leading flag byte says whether the optional params follow;
  - a one-shot `Builder` whose fields-set mask carries a used bit.

Parcels are modelled in module `Parcels` as a sequence of cells with a cursor (`Parcel`). A value of width `w` occupies one `Start` cell and `w - 1` continuation cells. Reads past the end yield zero or null and leave the cursor where it is. Nested parcelables are opaque values of known width.

## Model

| member | source | states |
|---|---|---|
| RequestTable.Get | android-31/src/com/android/internal/telephony/RadioConfig.java:299-309 | A lookup returns an entry of the table with the requested serial; when it returns null, no entry has that serial |
| RequestTable.Put | android-31/src/com/android/internal/telephony/RadioConfig.java:291-297 | Appending a request to the table adds it and adds nothing else |
| RequestTable.Remove | android-31/src/com/android/internal/telephony/RadioConfig.java:299-309 | Removing by serial adds nothing to the table |
| RequestTable.PutSorted | android-31/src/com/android/internal/telephony/RadioConfig.java:291-297 | Appending keeps the table in ascending serial order, with one entry per serial |
| RequestTable.PutGet | android-31/src/com/android/internal/telephony/RadioConfig.java:291-297 | After appending, the new serial finds the new request and every other serial finds what it found before |
| RequestTable.RemoveSorted | android-31/src/com/android/internal/telephony/RadioConfig.java:299-309 | Removing keeps the table sorted |
| RequestTable.RemoveGet | android-31/src/com/android/internal/telephony/RadioConfig.java:299-309 | After removing a serial it finds nothing, and every other serial finds what it found before |
| RequestTable.RemoveAbsent | android-31/src/com/android/internal/telephony/RadioConfig.java:299-309 | Removing an unknown serial leaves the table as it was |
| RequestTable.RemovePresent | android-31/src/com/android/internal/telephony/RadioConfig.java:299-309 | Removing a known serial drops exactly one entry |
| RadioConfigSpec.Initial | android-31/src/com/android/internal/telephony/RadioConfig.java:107-134 | A freshly constructed object is valid, with no proxy and an empty table |
| RadioConfigSpec.FailAll | android-31/src/com/android/internal/telephony/RadioConfig.java:180-198 | The failures delivered are one per pending request, in table order, each with the given error |
| RadioConfigSpec.FailAllOnce | android-31/src/com/android/internal/telephony/RadioConfig.java:180-198 | On a table with one entry per serial, each pending request is failed exactly once |
| RadioConfigSpec.ClearRequestListCompletesEach | android-31/src/com/android/internal/telephony/RadioConfig.java:180-198 | `clearRequestList` empties the table. It appends exactly one failure per pending request, in order, and each request is completed exactly once. On an empty table nothing is delivered |
| RadioConfigSpec.ObtainRequestRegisters | android-31/src/com/android/internal/telephony/RadioConfig.java:291-297 | After `obtainRequest` the table maps the serial to the new request, stays sorted, and no other entry changes |
| RadioConfigSpec.FindAndRemoveTakesEntry | android-31/src/com/android/internal/telephony/RadioConfig.java:299-309 | `findAndRemoveRequestFromList` returns the entry registered under the serial and removes exactly that entry. For an absent serial it returns null and changes nothing. No other entry and no other part of the state changes |
| RadioConfigSpec.ResponseMatchedOnce | android-31/src/com/android/internal/telephony/RadioConfig.java:317-333 | A second response with the same serial finds nothing and changes nothing |
| RadioConfigSpec.ResponseTypeIgnored | android-31/src/com/android/internal/telephony/RadioConfig.java:317-358 | The response type and error do not change what `processResponse`/`processResponse_1_6` do; an unknown serial returns null and changes nothing |
| RadioConfigSpec.TryVersion | android-31/src/com/android/internal/telephony/RadioConfig.java:246-271 | One lookup attempt changes only the proxy and the version. It stops the probe exactly on a remote failure, and a proxy it finds comes with that lookup's version |
| RadioConfigSpec.TryNext | android-31/src/com/android/internal/telephony/RadioConfig.java:255-271 | A fallback lookup changes only the proxy and the version; a proxy it produces carries its version |
| RadioConfigSpec.ProbeOutcome | android-31/src/com/android/internal/telephony/RadioConfig.java:243-289 | Probing agrees with the reference `Resolves`/`Connects`/`ProbedVersion`: the first version, newest first, that returns a proxy decides the version. The proxy survives only if linking succeeds. The cookie is bumped exactly when a proxy was found. A lookup that returns null still records its version. Nothing else changes |
| RadioConfigSpec.NullLookupRecordsVersion | android-31/src/com/android/internal/telephony/RadioConfig.java:246-270 | When 1.3 returns null and no older version is registered, the probe leaves no proxy, version 1.3 and the same cookie |
| RadioConfigSpec.ProbeValid | android-31/src/com/android/internal/telephony/RadioConfig.java:243-289 | Probing keeps the state valid and never lowers the cookie |
| RadioConfigSpec.AcquireProxyCases | android-31/src/com/android/internal/telephony/RadioConfig.java:215-241 | When the device is not data capable, `getRadioConfigProxy` returns null without probing and replies RADIO_NOT_AVAILABLE. A cached proxy is returned unchanged. Otherwise it returns what the probe connects, and replies RADIO_NOT_AVAILABLE exactly when that is null |
| RadioConfigSpec.AcquireProxyValid | android-31/src/com/android/internal/telephony/RadioConfig.java:215-241 | `getRadioConfigProxy` keeps the state valid, only extends the logs, leaves the table and the calls alone, and returns the stored proxy |
| RadioConfigSpec.ResetFlushes | android-31/src/com/android/internal/telephony/RadioConfig.java:200-212 | After a reset the table is empty and every request pending before it got RADIO_NOT_AVAILABLE. The cookie is strictly larger, and the proxy is whatever the new probe connects |
| RadioConfigSpec.ResetValid | android-31/src/com/android/internal/telephony/RadioConfig.java:200-212 | A reset keeps the state valid and only extends it |
| RadioConfigSpec.StaleDeathIgnored | android-31/src/com/android/internal/telephony/RadioConfig.java:162-173 | A death notification with a stale cookie, or any other message, changes nothing; one with the current cookie empties the table and raises the cookie |
| RadioConfigSpec.ResetMakesCookiesStale | android-31/src/com/android/internal/telephony/RadioConfig.java:162-212 | After a reset, a death notification carrying any earlier cookie is a no-op |
| RadioConfigSpec.StaleStaysStale | android-31/src/com/android/internal/telephony/RadioConfig.java:162-212 | Once a cookie is stale it stays stale along any sequence of operations |
| RadioConfigSpec.IssueOutcome | android-31/src/com/android/internal/telephony/RadioConfig.java:363-378 | An issued request either is pending under its serial with its HAL call recorded, or, when the call or its arguments throw, is completed exactly once with RADIO_NOT_AVAILABLE along with the rest of the table |
| RadioConfigSpec.PreferredDataGate | android-31/src/com/android/internal/telephony/RadioConfig.java:442-446 | `isSetPreferredDataCommandSupported` is true exactly when the proxy is non-null at version 1.1 or later; without data capability it is false and changes nothing |
| RadioConfigSpec.SetPreferredDataModemGated | android-31/src/com/android/internal/telephony/RadioConfig.java:383-406 | When unsupported, `setPreferredDataModem` adds no entry, makes no call and replies REQUEST_NOT_SUPPORTED |
| RadioConfigSpec.GetPhoneCapabilityGated | android-31/src/com/android/internal/telephony/RadioConfig.java:411-434 | With a null proxy or a version below 1.1, `getPhoneCapability` replies REQUEST_NOT_SUPPORTED and adds no entry; any HAL call it makes is made at version 1.1 or later |
| RadioConfigSpec.SetModemsConfigGated | android-31/src/com/android/internal/telephony/RadioConfig.java:502-524 | Below 1.1, `setModemsConfig` adds no entry, makes no call and sends no REQUEST_NOT_SUPPORTED. At 1.1 or later it makes the call with the modem count narrowed to a byte |
| RadioConfigSpec.GetHalDeviceCapabilitiesGated | android-31/src/com/android/internal/telephony/RadioConfig.java:549-587 | A null message throws before anything changes. Below 1.3 no entry is added, no call is made, and the caller's own message gets REQUEST_NOT_SUPPORTED. At 1.3 the call is made |
| RadioConfigSpec.GetSimSlotsStatusValid | android-31/src/com/android/internal/telephony/RadioConfig.java:363-378 | `getSimSlotsStatus` keeps the state valid and only extends it |
| RadioConfigSpec.SetPreferredDataModemValid | android-31/src/com/android/internal/telephony/RadioConfig.java:383-406 | `setPreferredDataModem` keeps the state valid and only extends it |
| RadioConfigSpec.GetPhoneCapabilityValid | android-31/src/com/android/internal/telephony/RadioConfig.java:411-434 | `getPhoneCapability` keeps the state valid and only extends it |
| RadioConfigSpec.SetSimSlotsMappingValid | android-31/src/com/android/internal/telephony/RadioConfig.java:451-469 | `setSimSlotsMapping` keeps the state valid. With a proxy and a null slot array, it makes no call and empties the table |
| RadioConfigSpec.SetModemsConfigValid | android-31/src/com/android/internal/telephony/RadioConfig.java:502-524 | `setModemsConfig` keeps the state valid and only extends it |
| RadioConfigSpec.GetHalDeviceCapabilitiesValid | android-31/src/com/android/internal/telephony/RadioConfig.java:549-587 | `getHalDeviceCapabilities` keeps the state valid and only extends it |
| RadioConfigSpec.ApplyKeepsValid | android-31/src/com/android/internal/telephony/RadioConfig.java:162-587 | Every operation keeps the state valid. The data capability stays fixed, the cookie never decreases, and completions and calls are only appended |
| RadioConfigSpec.RunKeepsValid | android-31/src/com/android/internal/telephony/RadioConfig.java:162-587 | The same holds along any sequence of operations |
| RadioConfigSpec.DeviceNrCapabilities | android-31/src/com/android/internal/telephony/RadioConfig.java:117-133 | NSA is listed iff non-standalone is configured and SA iff standalone is, NSA before SA; the list is empty when neither is configured |
| RadioConfigSpec.DecimalRoundTrip | android-31/src/com/android/internal/telephony/RadioConfig.java:494 | The decimal rendering of a request code parses back to the code |
| RadioConfigSpec.RequestToString | android-31/src/com/android/internal/telephony/RadioConfig.java:479-496 | The string is non-empty and starts with `<` exactly for an unknown request |
| RadioConfigSpec.UnknownRequestCode | android-31/src/com/android/internal/telephony/RadioConfig.java:479-496 | An unknown request renders as `<unknown request `, its code in decimal, then `>`, and the code can be read back |
| RadioConfigSpec.RequestToStringInjective | android-31/src/com/android/internal/telephony/RadioConfig.java:479-496 | Different requests render to different strings |
| Telephony.PrimitiveArrayToArrayList | android-31/src/com/android/internal/telephony/RadioConfig.java:471-477 | The list holds the array's elements, in order |
| Telephony.RadioConfig.constructor | android-31/src/com/android/internal/telephony/RadioConfig.java:107-134 | The new object is in the initial state and holds the configured NR capabilities |
| Telephony.RadioConfig.SendReply | android-31/src/com/android/internal/telephony/RadioConfig.java:218-222 | A reply is recorded only when there is a message |
| Telephony.RadioConfig.HandleMessage | android-31/src/com/android/internal/telephony/RadioConfig.java:162-173 | Leaves the state `RadioConfigSpec.HandleMessage` describes |
| Telephony.RadioConfig.ClearRequestList | android-31/src/com/android/internal/telephony/RadioConfig.java:180-198 | The loop fails each pending request in order, then clears the table |
| Telephony.RadioConfig.ResetProxyAndRequestList | android-31/src/com/android/internal/telephony/RadioConfig.java:200-212 | Leaves the state `Reset` describes |
| Telephony.RadioConfig.GetRadioConfigProxy | android-31/src/com/android/internal/telephony/RadioConfig.java:215-241 | Returns the proxy and leaves the state `AcquireProxy` describes |
| Telephony.RadioConfig.TryService | android-31/src/com/android/internal/telephony/RadioConfig.java:246-271 | Performs one lookup attempt as `TryVersion` describes |
| Telephony.RadioConfig.UpdateRadioConfigProxy | android-31/src/com/android/internal/telephony/RadioConfig.java:243-289 | Leaves the state `UpdateProxy` describes |
| Telephony.RadioConfig.ObtainRequest | android-31/src/com/android/internal/telephony/RadioConfig.java:291-297 | Returns the new request and registers it in the table |
| Telephony.RadioConfig.FindAndRemoveRequestFromList | android-31/src/com/android/internal/telephony/RadioConfig.java:299-309 | Returns and removes the entry as `FindAndRemove` describes |
| Telephony.RadioConfig.ProcessResponse | android-31/src/com/android/internal/telephony/RadioConfig.java:317-358 | Returns and removes the entry under the response's serial |
| Telephony.RadioConfig.IssueRequest | android-31/src/com/android/internal/telephony/RadioConfig.java:366-377 | Registers the request, makes the call, and resets when the call throws |
| Telephony.RadioConfig.GetSimSlotsStatus | android-31/src/com/android/internal/telephony/RadioConfig.java:363-378 | Leaves the state `RadioConfigSpec.GetSimSlotsStatus` describes |
| Telephony.RadioConfig.IsSetPreferredDataCommandSupported | android-31/src/com/android/internal/telephony/RadioConfig.java:442-446 | Returns the answer the pure function gives and leaves its state |
| Telephony.RadioConfig.SetPreferredDataModem | android-31/src/com/android/internal/telephony/RadioConfig.java:383-406 | Leaves the state `RadioConfigSpec.SetPreferredDataModem` describes |
| Telephony.RadioConfig.GetPhoneCapability | android-31/src/com/android/internal/telephony/RadioConfig.java:411-434 | Leaves the state `RadioConfigSpec.GetPhoneCapability` describes |
| Telephony.RadioConfig.SetSimSlotsMapping | android-31/src/com/android/internal/telephony/RadioConfig.java:451-469 | Converts the array as `primitiveArrayToArrayList` does (a null array throws inside the `try`) and leaves the state `RadioConfigSpec.SetSimSlotsMapping` describes |
| Telephony.RadioConfig.SetModemsConfig | android-31/src/com/android/internal/telephony/RadioConfig.java:502-524 | Leaves the state `RadioConfigSpec.SetModemsConfig` describes |
| Telephony.RadioConfig.GetHalDeviceCapabilities | android-31/src/com/android/internal/telephony/RadioConfig.java:549-587 | Returns the exception that escapes and leaves the state `RadioConfigSpec.GetHalDeviceCapabilities` describes |
| Media.EncodeRecord | android-35/src/android/media/MicrophoneInfoFw.java:24-35 | The leading int equals the record's total width, header included, and the fields follow in order |
| Media.ReadRecordRejectsSmallSize | android-35/src/android/media/MicrophoneInfoFw.java:39-41 | A declared size below 4 throws, with the overflow exception taking precedence when the `finally` check trips; no field is read |
| Media.NegativeSizeOverflows | android-35/src/android/media/MicrophoneInfoFw.java:49-51 | A negative declared size always trips the overflow check |
| Media.ReadRecordEndsAtDeclaredSize | android-35/src/android/media/MicrophoneInfoFw.java:48-53 | Without overflow the cursor always ends at `start + size`; with overflow the overflow exception is thrown |
| Media.ReadFieldsOfPrefix | android-35/src/android/media/MicrophoneInfoFw.java:42-47 | The guarded reads over the first `n` fields set those fields and nothing else |
| Media.ReadRecordOfFirstFields | android-35/src/android/media/MicrophoneInfoFw.java:36-54 | A record holding only the first `n` fields sets those and keeps the later ones at their previous values. A record longer than all three sets all three and skips the rest |
| Media.ReadRecordRoundTrip | android-35/src/android/media/MicrophoneInfoFw.java:24-54 | Reading what `writeToParcel` wrote recovers `info`, `dynamic` and `portId` and ends at the end of the record |
| Media.DescribeContents | android-35/src/android/media/MicrophoneInfoFw.java:55-68 | The `int` mask, `0` or-ed with each nested mask through a separately defined bitwise or, has bit `k` set exactly when a non-null nested field reports bit `k` |
| Media.MicrophoneInfoFw.constructor | android-35/src/android/media/MicrophoneInfoFw.java:9-11 | A new object has null nested fields and `portId` 0 |
| Media.MicrophoneInfoFw.WriteToParcel | android-35/src/android/media/MicrophoneInfoFw.java:24-35 | The parcel gains `EncodeRecord` of the fields at the old cursor, and the cursor ends after it |
| Media.MicrophoneInfoFw.ReadFieldsFrom | android-35/src/android/media/MicrophoneInfoFw.java:40-47 | The `try` block sets the fields and moves the cursor as `ReadFields` describes |
| Media.MicrophoneInfoFw.ReadFromParcel | android-35/src/android/media/MicrophoneInfoFw.java:36-54 | Sets the fields, moves the cursor and throws as `ReadRecord` describes; the data is unchanged |
| Media.CreateFromParcel | android-35/src/android/media/MicrophoneInfoFw.java:12-18 | A fresh object read from the parcel, as `ReadRecord` describes from the defaults |
| Personalization.FlagsBits | android-35/src/android/adservices/ondevicepersonalization/ExecuteInputParcel.java:95-96 | Bit `0x2` of the flag byte is set iff the params are present, and no other bit is set |
| Personalization.Encoding | android-35/src/android/adservices/ondevicepersonalization/ExecuteInputParcel.java:91-100 | The encoding is 4 bytes of flags, plus the width of the name, plus the params cells, which are empty when the params are null |
| Personalization.DecodeWithoutParams | android-35/src/android/adservices/ondevicepersonalization/ExecuteInputParcel.java:109-123 | With bit `0x2` clear, the reader yields the name and null params and stops after the name |
| Personalization.DecodeWithParams | android-35/src/android/adservices/ondevicepersonalization/ExecuteInputParcel.java:109-123 | With bit `0x2` set, the reader yields the name and whatever the typed read returns |
| Personalization.DecodeRejectsNullName | android-35/src/android/adservices/ondevicepersonalization/ExecuteInputParcel.java:117-119 | A null name makes the reader throw NullPointerException |
| Personalization.RoundTrip | android-35/src/android/adservices/ondevicepersonalization/ExecuteInputParcel.java:91-123 | Reading what `writeToParcel` wrote gives back both fields and ends after the encoding |
| Personalization.WriteToParcel | android-35/src/android/adservices/ondevicepersonalization/ExecuteInputParcel.java:91-100 | The parcel gains `Encoding` at the old cursor, and the cursor ends after it |
| Personalization.CreateFromParcel | android-35/src/android/adservices/ondevicepersonalization/ExecuteInputParcel.java:109-137 | Returns, throws and moves the cursor as the reference decoder `DecodeAt` describes; the data is unchanged |
| Personalization.SettersTouchOnlyTheirBit | android-35/src/android/adservices/ondevicepersonalization/ExecuteInputParcel.java:159-177 | On an unused builder, each setter sets its own bit and field and nothing else; on a used one it throws and changes nothing |
| Personalization.BuildDefaults | android-35/src/android/adservices/ondevicepersonalization/ExecuteInputParcel.java:180-194 | `build` marks the builder used, defaults an unset name to "" and unset params to null, and fails only on an explicitly set null name |
| Personalization.BuilderIsOneShot | android-35/src/android/adservices/ondevicepersonalization/ExecuteInputParcel.java:180-201 | After `build`, both setters and a second `build` throw IllegalStateException and change nothing |
| Personalization.BuildWhatWasSet | android-35/src/android/adservices/ondevicepersonalization/ExecuteInputParcel.java:159-194 | Setting both fields, then building, yields an object with exactly those fields |
| Personalization.Builder.constructor | android-35/src/android/adservices/ondevicepersonalization/ExecuteInputParcel.java:147-153 | A new builder has no bits set and null fields |
| Personalization.Builder.CheckNotUsed | android-35/src/android/adservices/ondevicepersonalization/ExecuteInputParcel.java:196-201 | Returns IllegalStateException exactly when the used bit is set and null otherwise, the contract of `NotUsedCheck` it is tied to |
| Personalization.Builder.SetAppPackageName | android-35/src/android/adservices/ondevicepersonalization/ExecuteInputParcel.java:159-164 | Updates the builder as `WithAppPackageName` describes |
| Personalization.Builder.SetSerializedAppParams | android-35/src/android/adservices/ondevicepersonalization/ExecuteInputParcel.java:172-177 | Updates the builder as `WithSerializedAppParams` describes |
| Personalization.Builder.Build | android-35/src/android/adservices/ondevicepersonalization/ExecuteInputParcel.java:180-194 | Updates the builder and returns the result as `Built` describes |

## Left out

- Threading is left out. The model is one sequential actor. It does not model the `Handler` posting of death events, `synchronized (mRequestList)`, the `AtomicLong` cookie, or the static `sLock` singleton in `make`/`getInstance`.
- HwBinder and the HAL are oracles. `getService`, `linkToDeath`, `setResponseFunctions` and the remote methods are each an input that says whether they return, return null or throw. The proxy is an opaque identity.
- `RILRequest` internals are left out: `obtain`, `resetSerial`, `onError` and `release`. The serial of a new request is an input, and `onError` is recorded as a completion event.
- `HalVersion` is not part of this model. Versions are (major, minor) pairs ordered lexicographically.
- `AsyncResult` and `CommandException` delivery are reduced to recorded events. The full capability set that `getHalDeviceCapabilities` attaches to its REQUEST_NOT_SUPPORTED reply is not modelled.
- The RIL request codes and the NR capability constants are datatype constructors. Their integer values come from `RILConstants` and `PhoneCapability`, which are not part of this model. `Other(code)` stands for any code that is none of the six.
- `handleMessage` takes the cookie as an integer. The `(long)` cast of `message.obj`, and the exception it throws for a non-`Long` object, are not modelled.
- The cookie is an unbounded integer. The 64-bit wrap-around of `AtomicLong` after 2^63 increments is not modelled.
- `processResponse` and `processResponse_1_6` are identical, so `ProcessResponse` models both. The response-info classes are one `ResponseInfo` datatype.
- Logging, `DBG`/`VDBG` output, `Context`, `TelephonyManager`, resource lookups and `WorkSource` are left out. The data capability and the 5G flags are constructor parameters.
- `convertHalSlotStatus*`, `registerForSimSlotStatusChanged`/`unregisterForSimSlotStatusChanged` and `RadioConfig.make`/`getInstance` are foreign code and are not part of this model.
- `getDeviceNrCapabilities` is a plain getter of `deviceNrCapabilities` and is left out.
- The real `android.os.Parcel` byte layout, alignment details and the contents of nested parcelables are left out. A nested object is an opaque value of known width. `describeContents` of a nested value is an opaque `int` mask.
- Parcels.ReadIntAt, Parcels.ReadStringAt: a read that finds a cell of another kind, or a string that runs past the end of the data, throws `MalformedParcel`. Android's `Parcel` never throws there: `readInt` reinterprets the next 4 bytes and `readString` yields null. So the header `Threw` branch of `Media.ReadRecord` describes a throw that the header `readInt` cannot produce.
- `ExecuteInputParcel.describeContents` (constant 0), the getters, `CREATOR.newArray` and the codegen annotations carry no behaviour and are left out. The `Builder` setters return a status instead of `this`.
- `Algorithm.java` holds only integer constants and is not part of this model.
