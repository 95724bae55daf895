/**
 * `VertexBuffer`: a driver buffer holding the vertex list and the input layout
 * that tells the input assembler how one vertex is laid out.
 *
 * `load` releases whatever the object holds, records stride and count, asks
 * for the buffer and, only when that succeeds, for the layout.
 */
module VertexBuffers {
  import opened Base
  import opened Driver

  /** Bytes taken by one attribute of each format. */
  function FormatSize(f: Format): nat
  {
    match f
    case R32G32B32Float => 12
    case R8G8B8A8Unorm => 4
    case D24UnormS8Uint => 4
    case R32Uint => 4
  }

  /** The per-vertex layout `load` declares: a position and two colours. */
  const VertexLayout: seq<InputElement> := [
    InputElement("POSITION", 0, R32G32B32Float, 0),
    InputElement("COLOR", 0, R32G32B32Float, 12),
    InputElement("COLOR", 1, R32G32B32Float, 24)
  ]

  /** Where an attribute ends. */
  function End(e: InputElement): nat
  {
    e.offset + FormatSize(e.format)
  }

  /** Attributes follow each other without gaps or overlap, starting at byte 0. */
  predicate Packed(layout: seq<InputElement>)
  {
    && (|layout| > 0 ==> layout[0].offset == 0)
    && forall i | 0 <= i < |layout| - 1 :: End(layout[i]) == layout[i + 1].offset
  }

  /** In a packed layout every attribute starts after all earlier ones have ended: no two overlap. */
  lemma {:induction false} PackedOrder(layout: seq<InputElement>, i: nat, j: nat)
    requires Packed(layout) && i < j < |layout|
    ensures End(layout[i]) <= layout[j].offset
    decreases j - i
  {
    if i + 1 < j {
      PackedOrder(layout, i + 1, j);
      assert End(layout[i]) == layout[i + 1].offset <= End(layout[i + 1]);
    }
  }

  /** The declared layout: three 12-byte attributes at 0, 12 and 24, filling a 36-byte vertex. */
  lemma VertexLayoutPacked()
    ensures Packed(VertexLayout)
    ensures |VertexLayout| == 3 && End(VertexLayout[2]) == 36
    ensures forall i | 0 <= i < |VertexLayout| :: FormatSize(VertexLayout[i].format) == 12
  {
  }

  /** `size_vertex * size_list` computed in 32-bit `UINT` arithmetic. */
  function ByteWidth(sizeVertex: nat, sizeList: nat): (w: nat)
    ensures w < U32_MODULUS
  {
    U32(sizeVertex * sizeList)
  }

  /** Without 32-bit overflow the requested width is exactly stride times count. */
  lemma ByteWidthExact(sizeVertex: nat, sizeList: nat)
    requires sizeVertex * sizeList < U32_MODULUS
    ensures ByteWidth(sizeVertex, sizeList) == sizeVertex * sizeList
  {
  }

  /** With overflow the product wraps: 65536-byte vertices times 65536 of them request 0 bytes. */
  lemma ByteWidthWraps()
    ensures ByteWidth(0x1_0000, 0x1_0000) == 0
  {
  }

  /** The buffer the driver is asked for. */
  function BufferRequest(sizeVertex: nat, sizeList: nat): Resource
  {
    Buffer(BufferDesc(ByteWidth(sizeVertex, sizeList), VertexBufferBind))
  }

  class VertexBuffer {
    var buffer: Handle
    var layout: Handle
    var sizeVertex: nat
    var sizeList: nat

    /**
     * Every handle the object holds names a live driver object, and the two
     * are different objects.
     */
    ghost predicate Holds(driver: Driver)
      reads this, driver
    {
      && (buffer.Live? ==> buffer.id in LiveIds(driver.log))
      && (layout.Live? ==> layout.id in LiveIds(driver.log))
      && (buffer.Live? && layout.Live? ==> buffer.id != layout.id)
    }

    /** A new vertex buffer holds neither a buffer nor a layout. */
    constructor ()
      ensures buffer == Null && layout == Null
    {
      buffer, layout := Null, Null;
      sizeVertex, sizeList := 0, 0;
    }

    /**
     * `load`: release what is held, record stride and count, create the
     * buffer from the first ByteWidth bytes of the vertex data, then the
     * layout. A failed buffer creation returns before the layout is touched,
     * so `layout` keeps its value, a pointer released a moment ago.
     */
    method Load(driver: Driver, listVertices: seq<byte>, sizeVertex: nat, sizeList: nat, shaderSize: nat,
                bufferAccepted: bool, layoutAccepted: bool) returns (ok: bool)
      requires driver.Valid()
      requires sizeVertex < U32_MODULUS && sizeList < U32_MODULUS
      requires ByteWidth(sizeVertex, sizeList) <= |listVertices|
      modifies this, driver
      ensures driver.Valid()
      ensures ok <==> bufferAccepted && layoutAccepted
      ensures this.sizeVertex == sizeVertex && this.sizeList == sizeList
      ensures buffer == if bufferAccepted then Live(old(driver.nextId)) else Null
      ensures layout == if !bufferAccepted then old(layout)
                        else if layoutAccepted then Live(old(driver.nextId) + 1) else Null
      ensures driver.log == old(driver.log) + ReleaseIfSet(old(buffer)) + ReleaseIfSet(old(layout))
                            + [Created(BufferRequest(sizeVertex, sizeList), buffer)]
                            + (if bufferAccepted then [Created(InputLayout(VertexLayout, shaderSize), layout)] else [])
      ensures driver.memory == if bufferAccepted
                               then old(driver.memory)[buffer.id := listVertices[..ByteWidth(sizeVertex, sizeList)]]
                               else old(driver.memory)
      ensures driver.nextId == old(driver.nextId) + if bufferAccepted then (if layoutAccepted then 2 else 1) else 0
    {
      if buffer.Live? {
        driver.Release(buffer.id);
      }
      if layout.Live? {
        driver.Release(layout.id);
      }
      this.sizeVertex := sizeVertex;
      this.sizeList := sizeList;
      buffer := driver.CreateBuffer(BufferDesc(ByteWidth(sizeVertex, sizeList), VertexBufferBind), listVertices, bufferAccepted);
      if !bufferAccepted {
        return false;
      }
      layout := driver.Create(InputLayout(VertexLayout, shaderSize), layoutAccepted);
      ok := layoutAccepted;
    }

    /**
     * `load` with the released pointers cleared before anything is created:
     * the same driver calls and results, but a failed buffer creation leaves
     * no stale layout behind, so the object only ever holds live objects.
     */
    method LoadResetting(driver: Driver, listVertices: seq<byte>, sizeVertex: nat, sizeList: nat, shaderSize: nat,
                         bufferAccepted: bool, layoutAccepted: bool) returns (ok: bool)
      requires driver.Valid() && Holds(driver)
      requires sizeVertex < U32_MODULUS && sizeList < U32_MODULUS
      requires ByteWidth(sizeVertex, sizeList) <= |listVertices|
      modifies this, driver
      ensures driver.Valid() && Holds(driver)
      ensures ok <==> bufferAccepted && layoutAccepted
      ensures this.sizeVertex == sizeVertex && this.sizeList == sizeList
      ensures buffer == if bufferAccepted then Live(old(driver.nextId)) else Null
      ensures layout == if bufferAccepted && layoutAccepted then Live(old(driver.nextId) + 1) else Null
      ensures driver.log == old(driver.log) + ReleaseIfSet(old(buffer)) + ReleaseIfSet(old(layout))
                            + [Created(BufferRequest(sizeVertex, sizeList), buffer)]
                            + (if bufferAccepted then [Created(InputLayout(VertexLayout, shaderSize), layout)] else [])
      ensures driver.memory == if bufferAccepted
                               then old(driver.memory)[buffer.id := listVertices[..ByteWidth(sizeVertex, sizeList)]]
                               else old(driver.memory)
      ensures driver.nextId == old(driver.nextId) + if bufferAccepted then (if layoutAccepted then 2 else 1) else 0
    {
      if buffer.Live? {
        driver.Release(buffer.id);
        buffer := Null;
      }
      if layout.Live? {
        driver.Release(layout.id);
        layout := Null;
      }
      this.sizeVertex := sizeVertex;
      this.sizeList := sizeList;
      ghost var before := driver.log;
      buffer := driver.CreateBuffer(BufferDesc(ByteWidth(sizeVertex, sizeList), VertexBufferBind), listVertices, bufferAccepted);
      LiveAfter(before, Created(BufferRequest(sizeVertex, sizeList), buffer));
      if !bufferAccepted {
        return false;
      }
      before := driver.log;
      layout := driver.Create(InputLayout(VertexLayout, shaderSize), layoutAccepted);
      LiveAfter(before, Created(InputLayout(VertexLayout, shaderSize), layout));
      ok := layoutAccepted;
    }

    /** `getSizeVertexList`: the count given to the latest `load`. */
    function GetSizeVertexList(): nat
      reads this
    {
      sizeList
    }

    /**
     * `release`: releases the layout and then the buffer without checking
     * either pointer, so both must be set. (`delete this` is not modelled.)
     */
    method Release(driver: Driver) returns (ok: bool)
      requires driver.Valid() && buffer.Live? && layout.Live?
      modifies driver
      ensures driver.Valid() && ok
      ensures driver.log == old(driver.log) + [Released(layout.id), Released(buffer.id)]
      ensures driver.memory == old(driver.memory) && driver.nextId == old(driver.nextId)
    {
      driver.Release(layout.id);
      driver.Release(buffer.id);
      ok := true;
    }
  }

  /**
   * Three loads in a row whose middle one cannot get its buffer: the second
   * load releases the first layout, the third releases it again, because the
   * failed load left the released pointer in place. Returns how often the
   * first layout was released.
   */
  method StaleLayoutReleasedTwice() returns (releases: nat)
    ensures releases == 2
  {
    var driver := new Driver();
    var vb := new VertexBuffer();
    var data: seq<byte> := [0, 0, 0, 0];
    var ok := vb.Load(driver, data, 4, 1, 0, true, true);
    var first := vb.layout;
    assert first == Live(1);
    ok := vb.Load(driver, data, 4, 1, 0, false, true);
    assert vb.layout == first && vb.buffer == Null;
    ok := vb.Load(driver, data, 4, 1, 0, true, true);
    releases := multiset(driver.log)[Released(first.id)];
  }

  /** The same three loads with the pointers cleared release the first layout once. */
  method ResettingReleasesOnce() returns (releases: nat)
    ensures releases == 1
  {
    var driver := new Driver();
    var vb := new VertexBuffer();
    var data: seq<byte> := [0, 0, 0, 0];
    var ok := vb.LoadResetting(driver, data, 4, 1, 0, true, true);
    var first := vb.layout;
    assert first == Live(1);
    ok := vb.LoadResetting(driver, data, 4, 1, 0, false, true);
    assert vb.layout == Null && vb.buffer == Null;
    ok := vb.LoadResetting(driver, data, 4, 1, 0, true, true);
    releases := multiset(driver.log)[Released(first.id)];
  }
}
