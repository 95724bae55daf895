/**
 * `AppWindow`: the application window that owns the cube's buffers, shaders,
 * swap chain and camera input, draws one frame per `onUpdate` and keeps the
 * frame timer and the animation counters.
 *
 * Tick counts (`GetTickCount`, milliseconds since start-up in a 32-bit
 * `DWORD`) are inputs. Timers and counters are real numbers.
 */
module App {
  import opened Base
  import opened Driver
  import opened Swap
  import opened VertexBuffers
  import opened ConstantBuffers
  import opened Context
  import opened Engine
  import opened CameraInput

  // ---------------------------------------------------------------------
  // The cube built in `onCreate`

  /** The vertex of `onCreate`: a position and two colours, three floats each. */
  datatype CubeVertex = CubeVertex(position: Vec3, color: Vec3, color1: Vec3)

  /** The eight corners: the front face (z = -0.5) and then the back face (z = 0.5). */
  const CubeVertices: seq<CubeVertex> := [
    CubeVertex(Vec3(-0.5, -0.5, -0.5), Vec3(1.0, 0.0, 0.0), Vec3(0.2, 0.0, 0.0)),
    CubeVertex(Vec3(-0.5, 0.5, -0.5), Vec3(1.0, 1.0, 0.0), Vec3(0.2, 0.2, 0.0)),
    CubeVertex(Vec3(0.5, 0.5, -0.5), Vec3(1.0, 1.0, 0.0), Vec3(0.2, 0.2, 0.0)),
    CubeVertex(Vec3(0.5, -0.5, -0.5), Vec3(1.0, 0.0, 0.0), Vec3(0.2, 0.0, 0.0)),
    CubeVertex(Vec3(0.5, -0.5, 0.5), Vec3(0.0, 1.0, 0.0), Vec3(0.0, 0.2, 0.0)),
    CubeVertex(Vec3(0.5, 0.5, 0.5), Vec3(0.0, 1.0, 1.0), Vec3(0.0, 0.2, 0.2)),
    CubeVertex(Vec3(-0.5, 0.5, 0.5), Vec3(0.0, 1.0, 1.0), Vec3(0.0, 0.2, 0.2)),
    CubeVertex(Vec3(-0.5, -0.5, 0.5), Vec3(0.0, 1.0, 0.0), Vec3(0.0, 0.2, 0.0))
  ]

  /** Two triangles per side: front, back, top, bottom, right, left. */
  const CubeIndices: seq<nat> := [
    0, 1, 2,  2, 3, 0,
    4, 5, 6,  6, 7, 4,
    1, 6, 5,  5, 2, 1,
    7, 0, 3,  3, 4, 7,
    3, 2, 5,  5, 4, 3,
    7, 6, 1,  1, 0, 7
  ]

  /** Bytes of one cube vertex: three `Vector3D`s of three 4-byte floats. */
  const CubeVertexSize: nat := 3 * 3 * 4

  /** The cube is drawn from 36 indices, twelve triangles, every one of which names one of the 8 vertices. */
  lemma CubeIndicesInRange()
    ensures |CubeVertices| == 8
    ensures |CubeIndices| == 36 == 12 * 3
    ensures forall i | 0 <= i < |CubeIndices| :: CubeIndices[i] < |CubeVertices|
  {
  }

  /** No triangle is degenerate: its three corners are different vertices. */
  lemma CubeTrianglesProper()
    ensures forall t | 0 <= t < 12 ::
      && CubeIndices[3 * t] != CubeIndices[3 * t + 1]
      && CubeIndices[3 * t + 1] != CubeIndices[3 * t + 2]
      && CubeIndices[3 * t] != CubeIndices[3 * t + 2]
  {
  }

  /** The vertices are the eight distinct corners of the cube of side 1 centred on the origin. */
  lemma CubeCorners()
    ensures forall i | 0 <= i < |CubeVertices| ::
      var p := CubeVertices[i].position;
      (p.x == 0.5 || p.x == -0.5) && (p.y == 0.5 || p.y == -0.5) && (p.z == 0.5 || p.z == -0.5)
    ensures forall i, j | 0 <= i < j < |CubeVertices| :: CubeVertices[i].position != CubeVertices[j].position
  {
  }

  /** The cube's vertex fills exactly the per-vertex layout the vertex buffer declares. */
  lemma CubeVertexMatchesLayout()
    ensures CubeVertexSize == End(VertexLayout[|VertexLayout| - 1]) == 36
  {
    VertexLayoutPacked();
  }

  // ---------------------------------------------------------------------
  // Timing

  /**
   * The frame time in seconds from the previous and the current tick count:
   * 0 while there is no previous tick, otherwise the 32-bit unsigned
   * difference in milliseconds divided by 1000.
   */
  function DeltaTime(oldTick: nat, newTick: nat): (dt: real)
    ensures dt >= 0.0
    ensures oldTick == 0 ==> dt == 0.0
    ensures oldTick != 0 && oldTick <= newTick < U32_MODULUS ==> dt == (newTick - oldTick) as real / 1000.0
  {
    if oldTick != 0 then U32(newTick - oldTick) as real / 1000.0 else 0.0
  }

  /**
   * The unsigned difference survives the tick counter wrapping around: a
   * frame of `elapsed` milliseconds gives `elapsed / 1000` seconds even when
   * the counter passed 2^32 during it.
   */
  lemma DeltaAcrossWrap(oldTick: nat, elapsed: nat)
    requires 0 < oldTick < U32_MODULUS && elapsed < U32_MODULUS
    ensures DeltaTime(oldTick, U32(oldTick + elapsed)) == elapsed as real / 1000.0
  {
    U32Add(oldTick + elapsed, -(oldTick as int));
  }

  /** `m_delta_pos` after one frame: it grows by a tenth of the frame time and starts over at 0 once past 1. */
  function NextPos(pos: real, dt: real): (r: real)
    ensures r <= 1.0
    ensures pos + dt / 10.0 <= 1.0 ==> r == pos + dt / 10.0
    ensures pos + dt / 10.0 > 1.0 ==> r == 0.0
    ensures 0.0 <= pos && 0.0 <= dt ==> 0.0 <= r
  {
    var p := pos + dt / 10.0;
    if p > 1.0 then 0.0 else p
  }

  /** `m_delta_scale` after one frame: it grows by the frame time divided by 0.55 and is never reset. */
  function NextScale(scale: real, dt: real): real
  {
    scale + dt / 0.55
  }

  /** `m_delta_pos` after a run of frames with frame times `dts`. */
  function PosAfter(pos: real, dts: seq<real>): real
    decreases |dts|
  {
    if dts == [] then pos else PosAfter(NextPos(pos, dts[0]), dts[1..])
  }

  /** `m_delta_scale` after a run of frames with frame times `dts`. */
  function ScaleAfter(scale: real, dts: seq<real>): real
    decreases |dts|
  {
    if dts == [] then scale else ScaleAfter(NextScale(scale, dts[0]), dts[1..])
  }

  function Total(dts: seq<real>): real
    decreases |dts|
  {
    if dts == [] then 0.0 else dts[0] + Total(dts[1..])
  }

  /** However many frames pass, the position counter stays in [0, 1] when frame times are not negative. */
  lemma {:induction false} PosStaysInUnit(pos: real, dts: seq<real>)
    requires 0.0 <= pos <= 1.0
    requires forall i | 0 <= i < |dts| :: dts[i] >= 0.0
    ensures 0.0 <= PosAfter(pos, dts) <= 1.0
    decreases |dts|
  {
    if dts != [] {
      PosStaysInUnit(NextPos(pos, dts[0]), dts[1..]);
    }
  }

  /** The scale counter is never reset: after any run of frames it has grown by their total time divided by 0.55. */
  lemma {:induction false} ScaleAccumulates(scale: real, dts: seq<real>)
    ensures ScaleAfter(scale, dts) == scale + Total(dts) / 0.55
    decreases |dts|
  {
    if dts != [] {
      ScaleAccumulates(NextScale(scale, dts[0]), dts[1..]);
    }
  }

  // ---------------------------------------------------------------------
  // One frame

  /** What a frame draws with: the object numbers and values `onUpdate` hands to the context. */
  datatype FrameObjects = FrameObjects(
    swapChain: nat, rtv: Handle, dsv: Handle, constants: nat,
    vertexShader: Handle, pixelShader: Handle,
    vertexBuffer: Handle, stride: nat, layout: Handle,
    indexBuffer: Handle, indexCount: nat)

  /** The viewport of a client area of the given size. */
  function FrameViewport(width: nat, height: nat): Viewport
  {
    Viewport(0.0, 0.0, width as real, height as real, 0.0, 1.0)
  }

  /** The calls of a frame before the constants are updated: clear and bind the render target, set the viewport. */
  function FrameStart(o: FrameObjects, width: nat, height: nat): seq<Event>
  {
    [RenderTargetCleared(o.rtv, Color(0.0, 0.0, 0.0, 1.0)), DepthStencilCleared(o.dsv, 1.0, 0),
     RenderTargetsSet(o.rtv, o.dsv), ViewportSet(FrameViewport(width, height))]
  }

  /**
   * The calls of a frame after the constants are updated: bind them to the
   * vertex and then the pixel stage, bind the vertex and pixel shaders, the
   * vertex buffer and its layout, the index buffer, draw all indices as a
   * triangle list, and present with vertical sync.
   */
  function FrameDraw(o: FrameObjects): seq<Event>
  {
    [ConstantBufferSet(VertexStage, 0, Live(o.constants)), ConstantBufferSet(PixelStage, 0, Live(o.constants)),
     ShaderSet(VertexStage, o.vertexShader), ShaderSet(PixelStage, o.pixelShader),
     VertexBufferSet(0, o.vertexBuffer, o.stride, 0), InputLayoutSet(o.layout),
     IndexBufferSet(o.indexBuffer, R32Uint, 0),
     TopologySet(TriangleListTopology), DrawnIndexed(o.indexCount, 0, 0),
     Presented(o.swapChain, 1)]
  }

  /** The calls of one `onUpdate`, in order. */
  function Frame(o: FrameObjects, width: nat, height: nat): seq<Event>
  {
    FrameStart(o, width, height) + [Updated(o.constants)] + FrameDraw(o)
  }

  /** The pipeline a frame leaves bound: every slot holds what this frame bound to it. */
  function FramePipeline(o: FrameObjects, width: nat, height: nat): Pipeline
  {
    Pipeline(
      Targets(o.rtv, o.dsv),
      VertexInput(o.vertexBuffer, o.stride, 0),
      Layout(o.layout),
      IndexInput(o.indexBuffer, R32Uint, 0),
      PrimitiveTopology(TriangleListTopology),
      Port(FrameViewport(width, height)),
      Bound(o.vertexShader), Bound(o.pixelShader),
      Bound(Live(o.constants)), Bound(Live(o.constants)))
  }

  /** A frame cut into the runs of calls its proofs replay at once: three, three, three, three, one, and the last two. */
  function FrameChunks(o: FrameObjects, width: nat, height: nat): seq<seq<Event>>
  {
    [[RenderTargetCleared(o.rtv, Color(0.0, 0.0, 0.0, 1.0)), DepthStencilCleared(o.dsv, 1.0, 0), RenderTargetsSet(o.rtv, o.dsv)],
     [ViewportSet(FrameViewport(width, height)), Updated(o.constants), ConstantBufferSet(VertexStage, 0, Live(o.constants))],
     [ConstantBufferSet(PixelStage, 0, Live(o.constants)), ShaderSet(VertexStage, o.vertexShader), ShaderSet(PixelStage, o.pixelShader)],
     [VertexBufferSet(0, o.vertexBuffer, o.stride, 0), InputLayoutSet(o.layout), IndexBufferSet(o.indexBuffer, R32Uint, 0)],
     [TopologySet(TriangleListTopology)],
     [DrawnIndexed(o.indexCount, 0, 0), Presented(o.swapChain, 1)]]
  }

  lemma FrameInChunks(o: FrameObjects, width: nat, height: nat)
    ensures var c := FrameChunks(o, width, height);
      && Frame(o, width, height) == c[0] + c[1] + c[2] + c[3] + c[4] + c[5]
      && Frame(o, width, height)[..13] == c[0] + c[1] + c[2] + c[3] + c[4]
  {
  }

  /** Where the draw call sits in a frame. */
  const DrawAt: nat := 13

  /**
   * A frame binds every slot of the pipeline before it draws, so what the draw
   * sees is the same whatever earlier frames left bound; the calls after the
   * draw change no binding. The draw draws the index count, and it comes after
   * the constants were updated and before the present.
   */
  lemma FrameBindsEverything(p: Pipeline, o: FrameObjects, width: nat, height: nat)
    ensures var calls := Frame(o, width, height);
      && |calls| == 15
      && calls[DrawAt] == DrawnIndexed(o.indexCount, 0, 0)
      && calls[4] == Updated(o.constants) && calls[14] == Presented(o.swapChain, 1)
      && Replay(p, calls[..DrawAt]) == FramePipeline(o, width, height)
      && Replay(p, calls) == FramePipeline(o, width, height)
  {
    var c := FrameChunks(o, width, height);
    FrameInChunks(o, width, height);
    var p1 := Replay(p, c[0]);
    var p2 := Replay(p1, c[1]);
    var p3 := Replay(p2, c[2]);
    var p4 := Replay(p3, c[3]);
    var p5 := Replay(p4, c[4]);
    ChunksReplayStart(p, o, width, height);
    ChunksReplayStart(p1, o, width, height);
    ChunksReplayStart(p2, o, width, height);
    ChunksReplayEnd(p3, o, width, height);
    ChunksReplayEnd(p4, o, width, height);
    ChunksReplayEnd(p5, o, width, height);
    assert p5 == FramePipeline(o, width, height);
    ReplayInChunks(p, c[0], c[1], c[2], c[3], c[4], c[5]);
  }

  /** What the first three chunks of a frame bind: the render target, the viewport, the constants and the shaders. */
  lemma ChunksReplayStart(q: Pipeline, o: FrameObjects, width: nat, height: nat)
    ensures var c := FrameChunks(o, width, height);
      && Replay(q, c[0]) == q.(output := Targets(o.rtv, o.dsv))
      && Replay(q, c[1]) == q.(viewport := Port(FrameViewport(width, height)), vertexConstants := Bound(Live(o.constants)))
      && Replay(q, c[2]) == q.(pixelConstants := Bound(Live(o.constants)), vertexShader := Bound(o.vertexShader),
                               pixelShader := Bound(o.pixelShader))
  {
    var c := FrameChunks(o, width, height);
    ReplayShort(q, c[0][0], c[0][1], c[0][2]);
    ReplayShort(q, c[1][0], c[1][1], c[1][2]);
    ReplayShort(q, c[2][0], c[2][1], c[2][2]);
  }

  /** What the last three chunks of a frame bind: the inputs and the topology; the draw and the present bind nothing. */
  lemma ChunksReplayEnd(q: Pipeline, o: FrameObjects, width: nat, height: nat)
    ensures var c := FrameChunks(o, width, height);
      && Replay(q, c[3]) == q.(vertexInput := VertexInput(o.vertexBuffer, o.stride, 0), layout := Layout(o.layout),
                               indexInput := IndexInput(o.indexBuffer, R32Uint, 0))
      && Replay(q, c[4]) == q.(topology := PrimitiveTopology(TriangleListTopology))
      && Replay(q, c[5]) == q
  {
    var c := FrameChunks(o, width, height);
    ReplayShort(q, c[3][0], c[3][1], c[3][2]);
    ReplayShort(q, c[4][0], c[4][0], c[4][0]);
    ReplayShort(q, c[5][0], c[5][1], c[5][1]);
  }

  /** Replaying chunks one after the other is replaying their concatenation. */
  lemma ReplayInChunks(p: Pipeline, s1: seq<Event>, s2: seq<Event>, s3: seq<Event>, s4: seq<Event>, s5: seq<Event>, t: seq<Event>)
    ensures Replay(p, s1 + s2 + s3 + s4 + s5) == Replay(Replay(Replay(Replay(Replay(p, s1), s2), s3), s4), s5)
    ensures Replay(p, s1 + s2 + s3 + s4 + s5 + t) == Replay(Replay(p, s1 + s2 + s3 + s4 + s5), t)
  {
    ReplayAppend(p, s1, s2);
    ReplayAppend(p, s1 + s2, s3);
    ReplayAppend(p, s1 + s2 + s3, s4);
    ReplayAppend(p, s1 + s2 + s3 + s4, s5);
    ReplayAppend(p, s1 + s2 + s3 + s4 + s5, t);
  }

  // ---------------------------------------------------------------------
  // The window

  class AppWindow {
    const engine: GraphicsEngine
    const swapChain: SwapChain
    const vertexBuffer: VertexBuffer
    /** `m_ib`: the index buffer's driver object and its index count (`IndexBuffer` is not part of this model). */
    const indexBuffer: Handle
    const indexCount: nat
    const constantBuffer: ConstantBuffer
    const vertexShader: ShaderObject
    const pixelShader: ShaderObject
    const input: Input

    var oldDelta: nat
    var newDelta: nat
    var deltaTime: real
    var deltaPos: real
    var deltaScale: real

    /** The objects `onCreate` makes, and the timers and counters at zero. */
    constructor (engine: GraphicsEngine, swapChain: SwapChain, vertexBuffer: VertexBuffer,
                 indexBuffer: Handle, indexCount: nat, constantBuffer: ConstantBuffer,
                 vertexShader: ShaderObject, pixelShader: ShaderObject, input: Input)
      ensures this.engine == engine && this.swapChain == swapChain && this.vertexBuffer == vertexBuffer
      ensures this.indexBuffer == indexBuffer && this.indexCount == indexCount && this.constantBuffer == constantBuffer
      ensures this.vertexShader == vertexShader && this.pixelShader == pixelShader && this.input == input
      ensures oldDelta == 0 && newDelta == 0 && deltaTime == 0.0 && deltaPos == 0.0 && deltaScale == 0.0
    {
      this.engine, this.swapChain, this.vertexBuffer := engine, swapChain, vertexBuffer;
      this.indexBuffer, this.indexCount, this.constantBuffer := indexBuffer, indexCount, constantBuffer;
      this.vertexShader, this.pixelShader, this.input := vertexShader, pixelShader, input;
      oldDelta, newDelta, deltaTime, deltaPos, deltaScale := 0, 0, 0.0, 0.0, 0.0;
    }

    /** What this window's next frame draws with. */
    function Objects(): FrameObjects
      requires swapChain.swapChain.Live? && constantBuffer.buffer.Live?
      reads swapChain, constantBuffer, vertexBuffer, vertexShader, pixelShader
    {
      FrameObjects(swapChain.swapChain.id, swapChain.rtv, swapChain.dsv, constantBuffer.buffer.id,
                   vertexShader.resource, pixelShader.resource,
                   vertexBuffer.buffer, U32(vertexBuffer.sizeVertex), vertexBuffer.layout,
                   indexBuffer, indexCount)
    }

    /**
     * `updateQuadPosition`: advances both counters by the last frame time and
     * writes the frame's constants (`constants`, the bytes of the matrices
     * and time) to the constant buffer.
     */
    method UpdateQuadPosition(driver: Driver, constants: seq<byte>)
      requires driver.Valid()
      requires constantBuffer.buffer.Live? && constantBuffer.buffer.id in driver.memory
      requires |driver.memory[constantBuffer.buffer.id]| <= |constants|
      modifies this, driver
      ensures driver.Valid()
      ensures deltaPos == NextPos(old(deltaPos), deltaTime)
      ensures deltaScale == NextScale(old(deltaScale), deltaTime)
      ensures deltaTime == old(deltaTime) && oldDelta == old(oldDelta) && newDelta == old(newDelta)
      ensures driver.log == old(driver.log) + [Updated(constantBuffer.buffer.id)]
      ensures driver.memory == old(driver.memory)[constantBuffer.buffer.id :=
                                 constants[..|old(driver.memory)[constantBuffer.buffer.id]|]]
      ensures driver.nextId == old(driver.nextId)
    {
      deltaPos := deltaPos + deltaTime / 10.0;
      if deltaPos > 1.0 {
        deltaPos := 0.0;
      }
      deltaScale := deltaScale + deltaTime / 0.55;
      constantBuffer.Update(driver, constants);
    }

    /** The calls of a frame before the constants are updated, through `context`. */
    method BeginFrame(driver: Driver, context: DeviceContext, width: nat, height: nat)
      requires driver.Valid() && swapChain.swapChain.Live? && constantBuffer.buffer.Live?
      modifies context, driver
      ensures driver.Valid()
      ensures driver.log == old(driver.log) + FrameStart(Objects(), width, height)
      ensures context.state == old(context.state).(output := Targets(swapChain.rtv, swapChain.dsv),
                                                   viewport := Port(FrameViewport(width, height)))
      ensures driver.memory == old(driver.memory) && driver.nextId == old(driver.nextId)
      ensures context.context == old(context.context)
    {
      ghost var p := context.state;
      context.ClearRenderTargetColor(driver, swapChain, 0.0, 0.0, 0.0, 1.0);
      ReplayShort(p, RenderTargetCleared(swapChain.rtv, Color(0.0, 0.0, 0.0, 1.0)),
        DepthStencilCleared(swapChain.dsv, 1.0, 0), RenderTargetsSet(swapChain.rtv, swapChain.dsv));
      context.SetViewportSize(driver, width, height);
    }

    /** The calls of a frame after the constants are updated, through `context`. */
    method DrawFrame(driver: Driver, context: DeviceContext)
      requires driver.Valid() && swapChain.swapChain.Live? && constantBuffer.buffer.Live?
      modifies context, driver
      ensures driver.Valid()
      ensures driver.log == old(driver.log) + FrameDraw(Objects())
      ensures context.state == old(context.state).(
        vertexInput := VertexInput(vertexBuffer.buffer, U32(vertexBuffer.sizeVertex), 0),
        layout := Layout(vertexBuffer.layout),
        indexInput := IndexInput(indexBuffer, R32Uint, 0),
        topology := PrimitiveTopology(TriangleListTopology),
        vertexShader := Bound(vertexShader.resource), pixelShader := Bound(pixelShader.resource),
        vertexConstants := Bound(constantBuffer.buffer), pixelConstants := Bound(constantBuffer.buffer))
      ensures driver.memory == old(driver.memory) && driver.nextId == old(driver.nextId)
      ensures context.context == old(context.context)
    {
      BindShaders(driver, context);
      BindInputsAndDraw(driver, context);
      assert driver.log == old(driver.log) + FrameDraw(Objects())[..4] + FrameDraw(Objects())[4..];
    }

    /** The first four calls after the constants are updated: the constants to both stages, then both shaders. */
    method BindShaders(driver: Driver, context: DeviceContext)
      requires driver.Valid() && swapChain.swapChain.Live? && constantBuffer.buffer.Live?
      modifies context, driver
      ensures driver.Valid()
      ensures driver.log == old(driver.log) + FrameDraw(Objects())[..4]
      ensures context.state == old(context.state).(
        vertexShader := Bound(vertexShader.resource), pixelShader := Bound(pixelShader.resource),
        vertexConstants := Bound(constantBuffer.buffer), pixelConstants := Bound(constantBuffer.buffer))
      ensures driver.memory == old(driver.memory) && driver.nextId == old(driver.nextId)
      ensures context.context == old(context.context)
    {
      context.SetVertexConstantBuffer(driver, vertexShader.resource, constantBuffer);
      context.SetPixelConstantBuffer(driver, pixelShader.resource, constantBuffer);
      context.SetVertexShader(driver, vertexShader.resource);
      context.SetPixelShader(driver, pixelShader.resource);
    }

    /** The last six calls of a frame: the vertex buffer and its layout, the index buffer, the draw, the present. */
    method BindInputsAndDraw(driver: Driver, context: DeviceContext)
      requires driver.Valid() && swapChain.swapChain.Live? && constantBuffer.buffer.Live?
      modifies context, driver
      ensures driver.Valid()
      ensures driver.log == old(driver.log) + FrameDraw(Objects())[4..]
      ensures context.state == old(context.state).(
        vertexInput := VertexInput(vertexBuffer.buffer, U32(vertexBuffer.sizeVertex), 0),
        layout := Layout(vertexBuffer.layout),
        indexInput := IndexInput(indexBuffer, R32Uint, 0),
        topology := PrimitiveTopology(TriangleListTopology))
      ensures driver.memory == old(driver.memory) && driver.nextId == old(driver.nextId)
      ensures context.context == old(context.context)
    {
      ghost var p := context.state;
      context.SetVertexBuffer(driver, vertexBuffer);
      ReplayShort(p, VertexBufferSet(0, vertexBuffer.buffer, U32(vertexBuffer.sizeVertex), 0),
        InputLayoutSet(vertexBuffer.layout), InputLayoutSet(vertexBuffer.layout));
      context.SetIndexBuffer(driver, indexBuffer);
      context.DrawIndexedTriangleList(driver, indexCount, 0, 0);
      var presented := swapChain.Present(driver, true);
    }

    /**
     * `onUpdate`: one frame of calls (see Frame) through the engine's
     * immediate context, after which every pipeline slot holds what this
     * frame bound; then the timer: the previous tick becomes the old one,
     * `tick` the new one, and the frame time follows DeltaTime. The counters
     * advance by the frame time of the previous frame.
     */
    method OnUpdate(driver: Driver, width: nat, height: nat, tick: nat, constants: seq<byte>)
      requires driver.Valid()
      requires engine.immDeviceContext != null
      requires swapChain.swapChain.Live? && constantBuffer.buffer.Live?
      requires constantBuffer.buffer.id in driver.memory && |driver.memory[constantBuffer.buffer.id]| <= |constants|
      modifies this, driver, engine.immDeviceContext
      ensures driver.Valid()
      ensures driver.log == old(driver.log) + Frame(Objects(), width, height)
      ensures engine.immDeviceContext.state == Replay(old(engine.immDeviceContext.state), Frame(Objects(), width, height))
      ensures engine.immDeviceContext.state == FramePipeline(Objects(), width, height)
      ensures oldDelta == old(newDelta) && newDelta == tick && deltaTime == DeltaTime(old(newDelta), tick)
      ensures deltaPos == NextPos(old(deltaPos), old(deltaTime))
      ensures deltaScale == NextScale(old(deltaScale), old(deltaTime))
      ensures driver.memory == old(driver.memory)[constantBuffer.buffer.id :=
                                 constants[..|old(driver.memory)[constantBuffer.buffer.id]|]]
      ensures driver.nextId == old(driver.nextId)
      ensures engine.immDeviceContext.context == old(engine.immDeviceContext.context)
    {
      var context := engine.immDeviceContext;
      ghost var before := context.state;
      BeginFrame(driver, context, width, height);
      UpdateQuadPosition(driver, constants);
      DrawFrame(driver, context);
      oldDelta := newDelta;
      newDelta := tick;
      deltaTime := DeltaTime(oldDelta, newDelta);
      FrameBindsEverything(before, Objects(), width, height);
    }

    /** `onSize`: resizes the swap chain to the client area. */
    method OnSize(driver: Driver, width: nat, height: nat, a: ViewAnswers) returns (out: Outcome)
      requires driver.Valid() && swapChain.swapChain.Live? && swapChain.rtv.Live? && swapChain.dsv.Live?
      modifies swapChain, driver
      ensures driver.Valid()
      ensures out == ViewsOutcome(a, LoadMessages)
      ensures swapChain.swapChain == old(swapChain.swapChain)
      ensures driver.log == old(driver.log)
        + [Released(old(swapChain.rtv).id), Released(old(swapChain.dsv).id), Resized(swapChain.swapChain.id, width, height)]
        + ViewsLog(swapChain.swapChain.id, width, height, a, old(driver.nextId))
      ensures swapChain.rtv == if a.backBuffer then NewRenderTarget(a, old(driver.nextId)) else old(swapChain.rtv)
      ensures swapChain.dsv == if a.backBuffer && a.renderTarget && a.depthTexture
                               then NewDepthView(a, old(driver.nextId)) else old(swapChain.dsv)
      ensures driver.memory == old(driver.memory)
      ensures driver.nextId == old(driver.nextId) + ViewsCreated(a)
    {
      out := swapChain.Resize(driver, width, height, a);
    }

    /** `onKeyDown`: passes the key to the camera input. */
    method OnKeyDown(value: nat)
      requires input.Valid() && value < KeyCount
      modifies input.keys
      ensures input.keys[value]
      ensures forall i | 0 <= i < KeyCount && i != value :: input.keys[i] == old(input.keys[i])
    {
      input.KeyDown(value);
    }

    /** `onKeyUp`: passes the key to the camera input. */
    method OnKeyUp(value: nat)
      requires input.Valid() && value < KeyCount
      modifies input.keys
      ensures !input.keys[value]
      ensures forall i | 0 <= i < KeyCount && i != value :: input.keys[i] == old(input.keys[i])
    {
      input.KeyUp(value);
    }

    /**
     * `onDestroy`: releases the vertex buffer, the index buffer, the constant
     * buffer, the swap chain, the two shaders and the input (which holds no
     * driver object), and the engine last.
     */
    method OnDestroy(driver: Driver) returns (ok: bool)
      requires driver.Valid()
      requires vertexBuffer.buffer.Live? && vertexBuffer.layout.Live? && indexBuffer.Live?
      requires swapChain.swapChain.Live? && swapChain.rtv.Live? && swapChain.dsv.Live?
      requires vertexShader.resource.Live? && pixelShader.resource.Live?
      requires engine.device.Live? && engine.dxgiDevice.Live? && engine.dxgiAdapter.Live? && engine.dxgiFactory.Live?
      requires engine.immDeviceContext != null && engine.immDeviceContext.context.Live?
      modifies driver
      ensures driver.Valid() && ok
      ensures driver.log == old(driver.log) + Teardown(TeardownIds(), constantBuffer.buffer)
      ensures driver.memory == old(driver.memory) && driver.nextId == old(driver.nextId)
    {
      ok := vertexBuffer.Release(driver);
      driver.Release(indexBuffer.id);
      constantBuffer.Destroy(driver);
      swapChain.Destroy(driver);
      driver.Release(vertexShader.resource.id);
      driver.Release(pixelShader.resource.id);
      ok := engine.Release(driver);
    }

    /** The objects `onDestroy` releases besides the constant buffer, in the order it releases them. */
    function TeardownIds(): seq<nat>
      requires vertexBuffer.buffer.Live? && vertexBuffer.layout.Live? && indexBuffer.Live?
      requires swapChain.swapChain.Live? && swapChain.rtv.Live? && swapChain.dsv.Live?
      requires vertexShader.resource.Live? && pixelShader.resource.Live?
      requires engine.device.Live? && engine.dxgiDevice.Live? && engine.dxgiAdapter.Live? && engine.dxgiFactory.Live?
      requires engine.immDeviceContext != null && engine.immDeviceContext.context.Live?
      reads vertexBuffer, swapChain, vertexShader, pixelShader, engine, engine.immDeviceContext
    {
      [vertexBuffer.layout.id, vertexBuffer.buffer.id, indexBuffer.id,
       swapChain.swapChain.id, swapChain.rtv.id, swapChain.dsv.id,
       vertexShader.resource.id, pixelShader.resource.id,
       engine.dxgiDevice.id, engine.dxgiAdapter.id, engine.dxgiFactory.id,
       engine.immDeviceContext.context.id, engine.device.id]
    }
  }

  /** The releases of `onDestroy`: the first eight ids, the constant buffer if it is set, then the engine's five. */
  function Teardown(ids: seq<nat>, constants: Handle): seq<Event>
    requires |ids| == 13
  {
    [Released(ids[0]), Released(ids[1]), Released(ids[2])]
    + ReleaseIfSet(constants)
    + [Released(ids[3]), Released(ids[4]), Released(ids[5]), Released(ids[6]), Released(ids[7])]
    + [Released(ids[8]), Released(ids[9]), Released(ids[10]), Released(ids[11]), Released(ids[12])]
  }

  /** The ids a run of releases names: each of them, and nothing else. */
  function ReleasedIds(es: seq<Event>): (r: set<nat>)
    requires forall i | 0 <= i < |es| :: es[i].Released?
    ensures forall i | 0 <= i < |es| :: es[i].id in r
    ensures forall x | x in r :: exists i | 0 <= i < |es| :: es[i].id == x
    decreases |es|
  {
    if es == [] then {}
    else
      var rest := ReleasedIds(es[1..]);
      assert forall i | 1 <= i < |es| :: es[i] == es[1..][i - 1];
      {es[0].id} + rest
  }

  /** Releasing a run of ids removes exactly those ids from the live set. */
  lemma {:induction false} ReleasingRemoves(live: set<nat>, es: seq<Event>)
    requires forall i | 0 <= i < |es| :: es[i].Released?
    ensures LiveThrough(live, es) == live - ReleasedIds(es)
    decreases |es|
  {
    if es != [] {
      ReleasingRemoves(Step(live, es[0]), es[1..]);
    }
  }

  /**
   * After `onDestroy` none of the objects it releases is alive any more: the
   * window's objects, the constant buffer and the engine's five.
   */
  lemma TeardownLeavesNothing(log: seq<Event>, ids: seq<nat>, constants: Handle)
    requires |ids| == 13
    ensures var after := LiveIds(log + Teardown(ids, constants));
      && (forall i | 0 <= i < 13 :: ids[i] !in after)
      && (constants.Live? ==> constants.id !in after)
      && after <= LiveIds(log)
  {
    var es := Teardown(ids, constants);
    TeardownReleases(ids, constants);
    LiveConcat(log, es);
    ReleasingRemoves(LiveIds(log), es);
  }

  /** `onDestroy` only releases, and it releases every one of the ids and the constant buffer if it is set. */
  lemma TeardownReleases(ids: seq<nat>, constants: Handle)
    requires |ids| == 13
    ensures var es := Teardown(ids, constants);
      && (forall i | 0 <= i < |es| :: es[i].Released?)
      && (forall i | 0 <= i < 13 :: ids[i] in ReleasedIds(es))
      && (constants.Live? ==> constants.id in ReleasedIds(es))
  {
    var es := Teardown(ids, constants);
    var k := if constants.Live? then 1 else 0;
    assert |es| == 13 + k;
    forall i | 0 <= i < 13
      ensures es[if i < 3 then i else i + k] == Released(ids[i])
    {
    }
    if constants.Live? {
      assert es[3] == Released(constants.id);
    }
  }
}
