/**
 * The HRESULT helpers of the graphics layer: `Assert`, which turns a failure
 * code into a thrown `Win32Exception`, and `IsDeviceLostReason`.
 */
module HResultExtensions {
  import opened BoundedInts
  import opened HResults

  /** What a call to `Assert` does: return normally, or throw a `Win32Exception`. */
  datatype AssertOutcome =
    | Returned
      /** `ThrowHelper.ThrowWin32Exception(result)`: the exception carries the failing code. */
    | ThrewForCode(code: Int32)
      /** The debug-only exception raised when the D3D12 info queue held errors or warnings. */
    | ThrewForInfoQueue(message: string)

  const InfoQueueMessage: string := "Warning or error detected by ID3D12InfoQueue."

  /**
   * `Assert(int)`. `debugOutputEnabled` is `Configuration.IsDebugOutputEnabled`
   * and `infoQueueHasErrorsOrWarnings` is what flushing the D3D12 info queues
   * reports in the debug branch; both are inputs here because they come from
   * process configuration and device I/O.
   */
  function Assert(result: Int32, debugOutputEnabled: bool, infoQueueHasErrorsOrWarnings: bool): (r: AssertOutcome)
    // Outside debug mode the call throws exactly on failure codes, carrying the code.
    ensures !debugOutputEnabled ==> (r == Returned <==> result >= 0)
    ensures !debugOutputEnabled ==> (r != Returned ==> r == ThrewForCode(result))
    // A failure code always wins over the info-queue report.
    ensures result < 0 ==> r == ThrewForCode(result)
    // In debug mode a success code still throws when the info queue reported something.
    ensures debugOutputEnabled && result >= 0 ==>
              (r == Returned <==> !infoQueueHasErrorsOrWarnings)
    ensures debugOutputEnabled && result >= 0 && infoQueueHasErrorsOrWarnings ==> r == ThrewForInfoQueue(InfoQueueMessage)
  {
    if !debugOutputEnabled then
      if result < 0 then ThrewForCode(result) else Returned
    else
      if result < 0 then ThrewForCode(result)
      else if infoQueueHasErrorsOrWarnings then ThrewForInfoQueue(InfoQueueMessage)
      else Returned
  }

  /** `Assert(HRESULT)`: forwards the underlying `int` value. */
  function AssertHResult(result: HRESULT, debugOutputEnabled: bool, infoQueueHasErrorsOrWarnings: bool): (r: AssertOutcome)
    ensures r == Assert(result.Value, debugOutputEnabled, infoQueueHasErrorsOrWarnings)
    ensures !debugOutputEnabled ==> (r == Returned <==> Succeeded(result.Value))
  {
    Assert(result.Value, debugOutputEnabled, infoQueueHasErrorsOrWarnings)
  }

  /** The six DXGI codes that mean the device was lost. */
  const DeviceLostReasons: set<Int32> := {
    DXGI_ERROR_DEVICE_HUNG,
    DXGI_ERROR_DEVICE_REMOVED,
    DXGI_ERROR_DEVICE_RESET,
    DXGI_ERROR_DRIVER_INTERNAL_ERROR,
    DXGI_ERROR_INVALID_CALL,
    DXGI_ERROR_ACCESS_DENIED
  }

  /** `IsDeviceLostReason`: a pattern match of the `int` value against the six codes. */
  function IsDeviceLostReason(result: HRESULT): (r: bool)
    ensures r <==> result.Value in DeviceLostReasons
    ensures r ==> !Succeeded(result.Value) && Facility(result.Value) == FACILITY_DXGI
  {
    var v := result.Value;
    v == DXGI_ERROR_DEVICE_HUNG
    || v == DXGI_ERROR_DEVICE_REMOVED
    || v == DXGI_ERROR_DEVICE_RESET
    || v == DXGI_ERROR_DRIVER_INTERNAL_ERROR
    || v == DXGI_ERROR_INVALID_CALL
    || v == DXGI_ERROR_ACCESS_DENIED
  }

  /** Exactly six distinct values are device-lost reasons. */
  lemma DeviceLostReasonsAreExactlySix(result: HRESULT)
    ensures IsDeviceLostReason(result) <==> result.Value in DeviceLostReasons
    ensures |DeviceLostReasons| == 6
  {
  }

  /**
   * Every device-lost reason is a failure code of the DXGI facility, so no
   * success code (S_OK, S_FALSE, ...) is one, and `Assert` outside debug mode
   * throws on each of them.
   */
  lemma DeviceLostReasonsAreDxgiFailures(result: HRESULT)
    requires IsDeviceLostReason(result)
    ensures !Succeeded(result.Value)
    ensures Facility(result.Value) == FACILITY_DXGI
    ensures Assert(result.Value, false, false) == ThrewForCode(result.Value)
  {
  }

  /** No success code is a device-lost reason. */
  lemma SuccessCodesAreNotDeviceLost(result: HRESULT)
    requires Succeeded(result.Value)
    ensures !IsDeviceLostReason(result)
  {
    if IsDeviceLostReason(result) {
      DeviceLostReasonsAreDxgiFailures(result);
    }
  }
}
