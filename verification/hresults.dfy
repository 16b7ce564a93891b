/**
 * HRESULT values used by the modelled code. The numeric values are the ones of
 * the Windows SDK headers (winerror.h and dxgi.h), written as their 32-bit
 * patterns and read back as signed 32-bit integers, as the C# `int` constants are.
 */
module HResults {
  import opened BoundedInts

  /** The `HRESULT` struct: a wrapper around its `int` value. */
  datatype HRESULT = HRESULT(Value: Int32)

  /** The SUCCEEDED macro: an HRESULT is a success code exactly when it is non-negative. */
  predicate Succeeded(hr: Int32) {
    hr >= 0
  }

  /** The 13-bit facility field (bits 16-28) of an HRESULT. */
  function Facility(hr: Int32): (r: nat)
    ensures r < 0x2000
  {
    (AsUInt32(hr) as int / 0x1_0000) % 0x2000
  }

  const FACILITY_DXGI: nat := 0x87A

  const S_OK: Int32 := 0
  const S_FALSE: Int32 := 1
  const E_POINTER: Int32 := AsInt32(0x8000_4003)
  const E_INVALIDARG: Int32 := AsInt32(0x8007_0057)
  /** HRESULT_FROM_WIN32(ERROR_INSUFFICIENT_BUFFER). */
  const E_NOT_SUFFICIENT_BUFFER: Int32 := AsInt32(0x8007_007A)
  /** HRESULT_FROM_WIN32(ERROR_INVALID_STATE). */
  const E_NOT_VALID_STATE: Int32 := AsInt32(0x8007_139F)

  const DXGI_ERROR_INVALID_CALL: Int32 := AsInt32(0x887A_0001)
  const DXGI_ERROR_DEVICE_REMOVED: Int32 := AsInt32(0x887A_0005)
  const DXGI_ERROR_DEVICE_HUNG: Int32 := AsInt32(0x887A_0006)
  const DXGI_ERROR_DEVICE_RESET: Int32 := AsInt32(0x887A_0007)
  const DXGI_ERROR_DRIVER_INTERNAL_ERROR: Int32 := AsInt32(0x887A_0020)
  const DXGI_ERROR_ACCESS_DENIED: Int32 := AsInt32(0x887A_002B)

  /** The error codes returned by the effect property callbacks are distinct failures. */
  lemma ErrorCodesAreDistinctFailures()
    ensures !Succeeded(E_POINTER) && !Succeeded(E_INVALIDARG)
    ensures !Succeeded(E_NOT_SUFFICIENT_BUFFER) && !Succeeded(E_NOT_VALID_STATE)
    ensures Succeeded(S_OK) && Succeeded(S_FALSE) && S_OK != S_FALSE
    ensures |{E_POINTER, E_INVALIDARG, E_NOT_SUFFICIENT_BUFFER, E_NOT_VALID_STATE}| == 4
  {
  }
}
