/**
 * `ConstantBuffer`: a driver buffer of fixed size holding the shader
 * constants, created from initial data and afterwards overwritten whole.
 */
module ConstantBuffers {
  import opened Base
  import opened Driver

  const CreateFailure: string := "Create Constant Buffer was not successful"

  /** The buffer the constructor asks for: `size_buffer` bytes bound as a constant buffer. */
  function ConstantRequest(sizeBuffer: nat): Resource
  {
    Buffer(BufferDesc(sizeBuffer, ConstantBufferBind))
  }

  class ConstantBuffer {
    /** `m_buffer`, null until the constructor's creation call writes it. */
    var buffer: Handle

    /** The in-class initialiser: the handle starts null. */
    constructor ()
      ensures buffer == Null
    {
      buffer := Null;
    }

    /**
     * `update`: `UpdateSubresource` on the whole buffer with no box, so the
     * driver copies as many bytes of `data` as the buffer holds and all of
     * its old contents are gone. The handle does not change.
     */
    method Update(driver: Driver, data: seq<byte>)
      requires driver.Valid()
      requires buffer.Live? && buffer.id in driver.memory && |driver.memory[buffer.id]| <= |data|
      modifies driver
      ensures driver.Valid()
      ensures driver.memory == old(driver.memory)[buffer.id := data[..|old(driver.memory)[buffer.id]|]]
      ensures |driver.memory[buffer.id]| == |old(driver.memory)[buffer.id]|
      ensures driver.log == old(driver.log) + [Updated(buffer.id)]
      ensures driver.nextId == old(driver.nextId)
    {
      driver.UpdateSubresource(buffer.id, data);
    }

    /** The destructor: releases the buffer when the handle is set. */
    method Destroy(driver: Driver)
      requires driver.Valid()
      modifies driver
      ensures driver.Valid()
      ensures driver.log == old(driver.log) + ReleaseIfSet(buffer)
      ensures driver.memory == old(driver.memory) && driver.nextId == old(driver.nextId)
    {
      if buffer.Live? {
        driver.Release(buffer.id);
      }
    }
  }

  /**
   * `ConstantBuffer::ConstantBuffer(buffer, size_buffer)`: the release of a
   * held buffer finds the handle still null and does nothing; then the driver
   * is asked for `size_buffer` bytes initialised from `data`, and a refusal
   * throws.
   */
  method NewConstantBuffer(driver: Driver, data: seq<byte>, sizeBuffer: nat, accepted: bool)
    returns (r: Result<ConstantBuffer>)
    requires driver.Valid()
    requires sizeBuffer < U32_MODULUS && sizeBuffer <= |data|
    modifies driver
    ensures driver.Valid()
    ensures r.Ok? <==> accepted
    ensures r.Throw? ==> r.message == CreateFailure
    ensures driver.log == old(driver.log) + [Created(ConstantRequest(sizeBuffer), if accepted then Live(old(driver.nextId)) else Null)]
    ensures r.Ok? ==>
      && fresh(r.value)
      && r.value.buffer == Live(old(driver.nextId))
      && driver.memory == old(driver.memory)[old(driver.nextId) := data[..sizeBuffer]]
      && |driver.memory[r.value.buffer.id]| == sizeBuffer
    ensures r.Throw? ==> driver.memory == old(driver.memory)
    ensures driver.nextId == old(driver.nextId) + if accepted then 1 else 0
  {
    var cb := new ConstantBuffer();
    assert cb.buffer.Null?;  // so the release of a held buffer makes no call
    cb.buffer := driver.CreateBuffer(BufferDesc(sizeBuffer, ConstantBufferBind), data, accepted);
    if cb.buffer.Null? {
      return Throw(CreateFailure);
    }
    r := Ok(cb);
  }

  /**
   * Two updates in a row: the buffer holds the second data, whatever the
   * first was, and still has the size it was created with.
   */
  method UpdateTwice(driver: Driver, cb: ConstantBuffer, first: seq<byte>, second: seq<byte>)
    requires driver.Valid()
    requires cb.buffer.Live? && cb.buffer.id in driver.memory
    requires |driver.memory[cb.buffer.id]| <= |first| && |driver.memory[cb.buffer.id]| <= |second|
    modifies driver
    ensures driver.Valid()
    ensures driver.memory == old(driver.memory)[cb.buffer.id := second[..|old(driver.memory)[cb.buffer.id]|]]
    ensures driver.log == old(driver.log) + [Updated(cb.buffer.id), Updated(cb.buffer.id)]
    ensures driver.nextId == old(driver.nextId)
  {
    cb.Update(driver, first);
    cb.Update(driver, second);
  }
}
