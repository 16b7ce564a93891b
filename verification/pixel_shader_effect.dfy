/**
 * The property callbacks of the D2D1 pixel shader effect: the get and set
 * accessors of the constant buffer, and the index check and argument
 * validation of the resource texture manager getter. Raw pointers are
 * `Option`s (`None` is null); a caller's buffer is the byte sequence it holds.
 */
module PixelShaderEffectProperties {
  import opened Wrappers
  import opened BoundedInts
  import opened HResults

  /**
   * The constant-buffer fields of the effect: the buffer size declared by the
   * shader (an `int`) and the native copy of the last buffer set, if any.
   */
  datatype EffectState = EffectState(constantBufferSize: Int32, constantBuffer: Option<seq<bv8>>)

  /**
   * The size is never negative, and a stored buffer has exactly that size:
   * `SetConstantBufferImpl` only stores buffers of the declared size.
   */
  predicate Valid(state: EffectState) {
    state.constantBufferSize >= 0
    && (state.constantBuffer.Some? ==> |state.constantBuffer.value| == state.constantBufferSize as int)
  }

  /**
   * The outcome of a get call: the HRESULT, the caller's buffer afterwards, and
   * the `uint` behind the `actualSize` pointer afterwards (`None` when the
   * pointer is null).
   */
  datatype GetResult = GetResult(hr: Int32, data: Option<seq<bv8>>, actualSize: Option<UInt32>)

  /**
   * `GetConstantBufferImpl`. A null buffer of size 0 with a non-null
   * `actualSize` is a size query. Otherwise the checks run in order: null
   * buffer, too small a buffer, no constant buffer set yet. On success the
   * stored bytes are copied to the front of the caller's buffer.
   */
  function GetConstantBuffer(state: EffectState, data: Option<seq<bv8>>, dataSize: UInt32, actualSize: Option<UInt32>): (r: GetResult)
    requires Valid(state)
    requires data.Some? ==> |data.value| == dataSize as int
    // The size query.
    ensures r.hr == S_FALSE <==> data.None? && dataSize == 0 && actualSize.Some?
    ensures r.hr == S_FALSE ==> r.actualSize == Some(state.constantBufferSize as int as UInt32)
    // The checks, in order.
    ensures data.None? && !(dataSize == 0 && actualSize.Some?) ==> r.hr == E_POINTER
    ensures data.Some? && (dataSize as int) < state.constantBufferSize as int ==> r.hr == E_NOT_SUFFICIENT_BUFFER
    ensures data.Some? && (dataSize as int) >= state.constantBufferSize as int && state.constantBuffer.None?
            ==> r.hr == E_NOT_VALID_STATE
    ensures r.hr == S_OK <==> data.Some? && (dataSize as int) >= state.constantBufferSize as int && state.constantBuffer.Some?
    // Nothing is written on failure.
    ensures r.hr != S_OK ==> r.data == data
    ensures r.hr != S_OK && r.hr != S_FALSE ==> r.actualSize == actualSize
    // On success: the stored bytes first, the rest of the caller's buffer untouched.
    ensures r.hr == S_OK ==>
              && r.data.Some? && |r.data.value| == |data.value|
              && r.data.value[..state.constantBufferSize] == state.constantBuffer.value
              && r.data.value[state.constantBufferSize..] == data.value[state.constantBufferSize..]
              && (actualSize.Some? ==> r.actualSize == Some(state.constantBufferSize as int as UInt32))
              && (actualSize.None? ==> r.actualSize.None?)
  {
    var size := state.constantBufferSize as int;
    if data.None? && dataSize == 0 && actualSize.Some? then
      GetResult(S_FALSE, data, Some(AsUInt32(state.constantBufferSize)))
    else if data.None? then
      GetResult(E_POINTER, data, actualSize)
    else if (dataSize as int) < size then
      GetResult(E_NOT_SUFFICIENT_BUFFER, data, actualSize)
    else if state.constantBuffer.None? then
      GetResult(E_NOT_VALID_STATE, data, actualSize)
    else
      var written: UInt32 := if size > 0 then size as UInt32 else 0;
      var copied := if size > 0 then state.constantBuffer.value + data.value[size..] else data.value;
      GetResult(S_OK, Some(copied), if actualSize.Some? then Some(written) else None)
  }

  /** The outcome of a set call: the HRESULT and the effect state afterwards. */
  datatype SetResult = SetResult(hr: Int32, state: EffectState)

  /**
   * `SetConstantBufferImpl`: a null buffer is rejected, then a buffer whose
   * size is not the declared size; otherwise the stored buffer is replaced by
   * a copy of the input.
   */
  function SetConstantBuffer(state: EffectState, data: Option<seq<bv8>>, dataSize: UInt32): (r: SetResult)
    requires data.Some? ==> |data.value| == dataSize as int
    ensures data.None? ==> r.hr == E_POINTER
    ensures data.Some? && dataSize != AsUInt32(state.constantBufferSize) ==> r.hr == E_INVALIDARG
    ensures r.hr == S_OK <==> data.Some? && dataSize == AsUInt32(state.constantBufferSize)
    ensures r.hr != S_OK ==> r.state == state
    ensures r.hr == S_OK ==> r.state.constantBuffer == data
    ensures r.state.constantBufferSize == state.constantBufferSize
    ensures Valid(state) ==> Valid(r.state)
  {
    if data.None? then SetResult(E_POINTER, state)
    else if dataSize != AsUInt32(state.constantBufferSize) then SetResult(E_INVALIDARG, state)
    else
      assert data.value[..dataSize] == data.value;
      SetResult(S_OK, state.(constantBuffer := Some(data.value[..dataSize])))
  }

  /**
   * A successful set followed by a get into a large enough buffer succeeds and
   * hands back exactly the bytes that were set.
   */
  lemma SetThenGet(state: EffectState, bytes: seq<bv8>, out: seq<bv8>, actualSize: Option<UInt32>)
    requires Valid(state)
    requires |bytes| == state.constantBufferSize as int
    requires |bytes| <= |out| < TWO_TO_THE_32
    ensures var s := SetConstantBuffer(state, Some(bytes), |bytes| as UInt32);
            s.hr == S_OK
            && var g := GetConstantBuffer(s.state, Some(out), |out| as UInt32, actualSize);
               g.hr == S_OK && g.data.Some? && g.data.value[..|bytes|] == bytes
  {
    var s := SetConstantBuffer(state, Some(bytes), |bytes| as UInt32);
    assert AsUInt32(state.constantBufferSize) == |bytes| as UInt32;
    assert s.hr == S_OK;
    assert s.state.constantBuffer == Some(bytes);
  }

  /** A size query reports the declared size without touching the caller's memory. */
  lemma SizeQueryReportsSize(state: EffectState, actualSize: UInt32)
    requires Valid(state)
    ensures GetConstantBuffer(state, None, 0, Some(actualSize))
         == GetResult(S_FALSE, None, Some(state.constantBufferSize as int as UInt32))
  {
  }

  // ---------------------------------------------------------------------------
  // Resource texture managers

  /** `D2D1ResourceTextureDescription`: the index of a resource texture and its dimension count. */
  datatype ResourceTextureDescription = ResourceTextureDescription(index: Int32, dimensions: Int32)

  /** The position of the first description with the given index, if any. */
  function FirstWithIndex(descriptions: seq<ResourceTextureDescription>, index: Int32): (r: Option<nat>)
    ensures r.Some? ==> r.value < |descriptions| && descriptions[r.value].index == index
    ensures r.Some? ==> forall j :: 0 <= j < r.value ==> descriptions[j].index != index
    ensures r.None? <==> forall j :: 0 <= j < |descriptions| ==> descriptions[j].index != index
  {
    if |descriptions| == 0 then None
    else if descriptions[0].index == index then Some(0)
    else match FirstWithIndex(descriptions[1..], index)
      case None => None
      case Some(k) => Some(k + 1)
  }

  /**
   * `IsResourceTextureManagerIndexValid`: a linear scan for the first
   * description with the requested index; its dimensions, read as `uint`, come
   * back with `true`. Without a match the result is `false` with 0 dimensions.
   */
  method IsResourceTextureManagerIndexValid(descriptions: seq<ResourceTextureDescription>, index: Int32)
    returns (valid: bool, dimensions: UInt32)
    ensures valid <==> exists i :: 0 <= i < |descriptions| && descriptions[i].index == index
    ensures valid ==> exists i :: (0 <= i < |descriptions| && descriptions[i].index == index
                                   && dimensions == AsUInt32(descriptions[i].dimensions)
                                   && forall j :: 0 <= j < i ==> descriptions[j].index != index)
    ensures !valid ==> dimensions == 0
  {
    var i := 0;
    while i < |descriptions|
      invariant 0 <= i <= |descriptions|
      invariant forall j :: 0 <= j < i ==> descriptions[j].index != index
    {
      if descriptions[i].index == index {
        return true, AsUInt32(descriptions[i].dimensions);
      }
      i := i + 1;
    }
    return false, 0;
  }

  /** The scan agrees with the first-match definition. */
  method ScanMatchesFirstWithIndex(descriptions: seq<ResourceTextureDescription>, index: Int32)
    returns (valid: bool, dimensions: UInt32)
    ensures match FirstWithIndex(descriptions, index)
            case None => !valid && dimensions == 0
            case Some(k) => valid && dimensions == AsUInt32(descriptions[k].dimensions)
  {
    valid, dimensions := IsResourceTextureManagerIndexValid(descriptions, index);
    if valid {
      var i :| 0 <= i < |descriptions| && descriptions[i].index == index
               && dimensions == AsUInt32(descriptions[i].dimensions)
               && forall j :: 0 <= j < i ==> descriptions[j].index != index;
      var k := FirstWithIndex(descriptions, index).value;
      assert !(k < i) && !(i < k);
    }
  }

  /**
   * The outcome of `GetResourceTextureManagerAtIndex`: the HRESULT, whether the
   * manager pointer was copied into the caller's buffer, and the value behind
   * `actualSize` afterwards.
   */
  datatype ManagerGetResult = ManagerGetResult(hr: Int32, copied: bool, actualSize: Option<UInt32>)

  /**
   * `GetResourceTextureManagerAtIndex`. An unknown index, then a null buffer,
   * then a buffer smaller than a pointer are rejected before any manager is
   * touched; otherwise the manager is copied out and `actualSize` receives the
   * pointer size (4 or 8 bytes, a property of the process).
   */
  method GetResourceTextureManagerAtIndex(
    descriptions: seq<ResourceTextureDescription>, index: Int32,
    data: Option<seq<bv8>>, dataSize: UInt32, actualSize: Option<UInt32>, pointerSize: nat)
    returns (r: ManagerGetResult)
    requires pointerSize == 4 || pointerSize == 8
    ensures (forall i :: 0 <= i < |descriptions| ==> descriptions[i].index != index) ==> r.hr == E_INVALIDARG
    ensures (exists i :: 0 <= i < |descriptions| && descriptions[i].index == index) && data.None? ==> r.hr == E_POINTER
    ensures ((exists i :: 0 <= i < |descriptions| && descriptions[i].index == index)
             && data.Some? && (dataSize as int) < pointerSize) ==> r.hr == E_INVALIDARG
    ensures r.hr == S_OK <==> (exists i :: 0 <= i < |descriptions| && descriptions[i].index == index)
                              && data.Some? && (dataSize as int) >= pointerSize
    ensures r.copied <==> r.hr == S_OK
    ensures r.hr == S_OK && actualSize.Some? ==> r.actualSize == Some(pointerSize as UInt32)
    ensures r.hr != S_OK || actualSize.None? ==> r.actualSize == actualSize
  {
    var valid, _ := IsResourceTextureManagerIndexValid(descriptions, index);
    if !valid {
      return ManagerGetResult(E_INVALIDARG, false, actualSize);
    }
    if data.None? {
      return ManagerGetResult(E_POINTER, false, actualSize);
    }
    if (dataSize as int) < pointerSize {
      return ManagerGetResult(E_INVALIDARG, false, actualSize);
    }
    var written := if actualSize.Some? then Some(pointerSize as UInt32) else None;
    return ManagerGetResult(S_OK, true, written);
  }
}
