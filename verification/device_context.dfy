/**
 * `DeviceContext`: the wrapper around the immediate context through which the
 * engine binds resources to the pipeline and draws.
 *
 * Every call goes to the driver log, and the wrapper keeps the pipeline state
 * the calls leave bound. What a call binds is defined once, by `Apply`, in
 * terms of the pipeline's slots; each method is proved to make its calls and
 * to leave the state `Apply` says.
 */
module Context {
  import opened Base
  import opened Driver
  import opened Swap
  import opened VertexBuffers
  import opened ConstantBuffers

  /** The slots of pipeline state the engine binds (input slot 0 and constant slot 0 only). */
  datatype Slot =
    | OutputSlot
    | VertexInputSlot
    | LayoutSlot
    | IndexInputSlot
    | TopologySlot
    | ViewportSlot
    | ShaderSlot(shaderStage: Stage)
    | ConstantSlot(constantStage: Stage)

  /** What a slot holds. */
  datatype Binding =
    | Unbound
    | Targets(rtv: Handle, dsv: Handle)
    | VertexInput(vertexBuffer: Handle, stride: nat, vertexOffset: nat)
    | Layout(layout: Handle)
    | IndexInput(indexBuffer: Handle, format: Format, indexOffset: nat)
    | PrimitiveTopology(topology: Topology)
    | Port(viewport: Viewport)
    | Bound(resource: Handle)

  /** The bound pipeline state, one field per slot. */
  datatype Pipeline = Pipeline(
    output: Binding, vertexInput: Binding, layout: Binding, indexInput: Binding,
    topology: Binding, viewport: Binding,
    vertexShader: Binding, pixelShader: Binding,
    vertexConstants: Binding, pixelConstants: Binding)

  /** A fresh context binds nothing. */
  const Initial: Pipeline := Pipeline(Unbound, Unbound, Unbound, Unbound, Unbound, Unbound, Unbound, Unbound, Unbound, Unbound)

  /** What slot `s` holds. */
  function Get(p: Pipeline, s: Slot): Binding
  {
    match s
    case OutputSlot => p.output
    case VertexInputSlot => p.vertexInput
    case LayoutSlot => p.layout
    case IndexInputSlot => p.indexInput
    case TopologySlot => p.topology
    case ViewportSlot => p.viewport
    case ShaderSlot(stage) => if stage == VertexStage then p.vertexShader else p.pixelShader
    case ConstantSlot(stage) => if stage == VertexStage then p.vertexConstants else p.pixelConstants
  }

  /** The slot a call binds, if it binds one. */
  function SlotOf(e: Event): Option<Slot>
  {
    match e
    case RenderTargetsSet(_, _) => Some(OutputSlot)
    case VertexBufferSet(slot, _, _, _) => if slot == 0 then Some(VertexInputSlot) else None
    case InputLayoutSet(_) => Some(LayoutSlot)
    case IndexBufferSet(_, _, _) => Some(IndexInputSlot)
    case TopologySet(_) => Some(TopologySlot)
    case ViewportSet(_) => Some(ViewportSlot)
    case ShaderSet(stage, _) => Some(ShaderSlot(stage))
    case ConstantBufferSet(stage, slot, _) => if slot == 0 then Some(ConstantSlot(stage)) else None
    case _ => None
  }

  /** What a binding call puts in its slot. */
  function BindingOf(e: Event): Binding
  {
    match e
    case RenderTargetsSet(rtv, dsv) => Targets(rtv, dsv)
    case VertexBufferSet(_, buffer, stride, offset) => VertexInput(buffer, stride, offset)
    case InputLayoutSet(layout) => Layout(layout)
    case IndexBufferSet(buffer, format, offset) => IndexInput(buffer, format, offset)
    case TopologySet(t) => PrimitiveTopology(t)
    case ViewportSet(v) => Port(v)
    case ShaderSet(_, h) => Bound(h)
    case ConstantBufferSet(_, _, h) => Bound(h)
    case _ => Unbound
  }

  /** The pipeline state after one call. */
  function Apply(p: Pipeline, e: Event): Pipeline
  {
    match e
    case RenderTargetsSet(rtv, dsv) => p.(output := Targets(rtv, dsv))
    case VertexBufferSet(slot, buffer, stride, offset) =>
      if slot == 0 then p.(vertexInput := VertexInput(buffer, stride, offset)) else p
    case InputLayoutSet(layout) => p.(layout := Layout(layout))
    case IndexBufferSet(buffer, format, offset) => p.(indexInput := IndexInput(buffer, format, offset))
    case TopologySet(t) => p.(topology := PrimitiveTopology(t))
    case ViewportSet(v) => p.(viewport := Port(v))
    case ShaderSet(stage, h) =>
      if stage == VertexStage then p.(vertexShader := Bound(h)) else p.(pixelShader := Bound(h))
    case ConstantBufferSet(stage, slot, h) =>
      if slot != 0 then p
      else if stage == VertexStage then p.(vertexConstants := Bound(h)) else p.(pixelConstants := Bound(h))
    case _ => p
  }

  /** The pipeline state after a run of calls. */
  function Replay(p: Pipeline, es: seq<Event>): Pipeline
    decreases |es|
  {
    if es == [] then p else Replay(Apply(p, es[0]), es[1..])
  }

  /**
   * A binding call changes exactly its own slot, to what the call names; every
   * other call (clears, draws, presents, creations) changes nothing.
   */
  lemma ApplySetsOneSlot(p: Pipeline, e: Event)
    ensures SlotOf(e).Some? ==> Get(Apply(p, e), SlotOf(e).value) == BindingOf(e)
    ensures forall s | SlotOf(e) != Some(s) :: Get(Apply(p, e), s) == Get(p, s)
    ensures SlotOf(e).None? ==> Apply(p, e) == p
  {
  }

  /** Replaying a short run of calls is applying them one by one. */
  lemma ReplayShort(p: Pipeline, e1: Event, e2: Event, e3: Event)
    ensures Replay(p, [e1]) == Apply(p, e1)
    ensures Replay(p, [e1, e2]) == Apply(Apply(p, e1), e2)
    ensures Replay(p, [e1, e2, e3]) == Apply(Apply(Apply(p, e1), e2), e3)
  {
    assert [e1][1..] == [];
    assert [e1, e2][1..] == [e2] && [e2][1..] == [];
    assert [e1, e2, e3][1..] == [e2, e3] && [e2, e3][1..] == [e3] && [e3][1..] == [];
    assert Replay(Apply(p, e1), [e2]) == Apply(Apply(p, e1), e2);
    assert Replay(Apply(Apply(p, e1), e2), [e3]) == Apply(Apply(Apply(p, e1), e2), e3);
    assert Replay(Apply(p, e1), [e2, e3]) == Replay(Apply(Apply(p, e1), e2), [e3]);
  }

  /** Replaying two runs one after the other. */
  lemma {:induction false} ReplayAppend(p: Pipeline, es: seq<Event>, fs: seq<Event>)
    ensures Replay(p, es + fs) == Replay(Replay(p, es), fs)
    decreases |es|
  {
    if es == [] {
      assert es + fs == fs;
    } else {
      assert (es + fs)[1..] == es[1..] + fs;
      ReplayAppend(Apply(p, es[0]), es[1..], fs);
    }
  }

  /** A slot holds what the last call binding it named, or what it held before when no call binds it. */
  lemma {:induction false} ReplayLastWins(p: Pipeline, es: seq<Event>, s: Slot)
    ensures (forall e | e in es :: SlotOf(e) != Some(s)) ==> Get(Replay(p, es), s) == Get(p, s)
    ensures forall i | 0 <= i < |es| && SlotOf(es[i]) == Some(s) && (forall j | i < j < |es| :: SlotOf(es[j]) != Some(s)) ::
      Get(Replay(p, es), s) == BindingOf(es[i])
    decreases |es|
  {
    if es != [] {
      ApplySetsOneSlot(p, es[0]);
      ReplayLastWins(Apply(p, es[0]), es[1..], s);
      forall i | 0 <= i < |es| && SlotOf(es[i]) == Some(s) && (forall j | i < j < |es| :: SlotOf(es[j]) != Some(s))
        ensures Get(Replay(p, es), s) == BindingOf(es[i])
      {
        if i > 0 {
          assert es[1..][i - 1] == es[i];
          forall j | i - 1 < j < |es| - 1
            ensures SlotOf(es[1..][j]) != Some(s)
          {
            assert es[1..][j] == es[j + 1];
          }
        } else {
          forall e | e in es[1..]
            ensures SlotOf(e) != Some(s)
          {
            var j :| 0 <= j < |es[1..]| && es[1..][j] == e;
            assert es[j + 1] == e;
          }
        }
      }
    }
  }

  class DeviceContext {
    /** `m_device_context`: the immediate context this wrapper drives. */
    var context: Handle
    /** The pipeline state the calls made through this wrapper leave bound. */
    var state: Pipeline

    constructor (context: Handle)
      ensures this.context == context && state == Initial
    {
      this.context := context;
      state := Initial;
    }

    /**
     * `clearRenderTargetColor`: clears the swap chain's render-target view to
     * the colour, its depth-stencil view to depth 1 and stencil 0, and then
     * binds both as the single render target.
     */
    method ClearRenderTargetColor(driver: Driver, swapChain: SwapChain, red: real, green: real, blue: real, alpha: real)
      requires driver.Valid()
      modifies this, driver
      ensures driver.Valid()
      ensures driver.log == old(driver.log) + [
        RenderTargetCleared(swapChain.rtv, Color(red, green, blue, alpha)),
        DepthStencilCleared(swapChain.dsv, 1.0, 0),
        RenderTargetsSet(swapChain.rtv, swapChain.dsv)]
      ensures state == Replay(old(state), [
        RenderTargetCleared(swapChain.rtv, Color(red, green, blue, alpha)),
        DepthStencilCleared(swapChain.dsv, 1.0, 0),
        RenderTargetsSet(swapChain.rtv, swapChain.dsv)])
      ensures context == old(context)
      ensures driver.memory == old(driver.memory) && driver.nextId == old(driver.nextId)
    {
      ReplayShort(state, RenderTargetCleared(swapChain.rtv, Color(red, green, blue, alpha)),
        DepthStencilCleared(swapChain.dsv, 1.0, 0), RenderTargetsSet(swapChain.rtv, swapChain.dsv));
      driver.Record(RenderTargetCleared(swapChain.rtv, Color(red, green, blue, alpha)));
      driver.Record(DepthStencilCleared(swapChain.dsv, 1.0, 0));
      driver.Record(RenderTargetsSet(swapChain.rtv, swapChain.dsv));
      state := state.(output := Targets(swapChain.rtv, swapChain.dsv));
    }

    /**
     * `setVertexBuffer`: binds the buffer to input slot 0 with the stride the
     * buffer recorded (as a 32-bit `UINT`) and offset 0, then its input layout.
     */
    method SetVertexBuffer(driver: Driver, vertexBuffer: VertexBuffer)
      requires driver.Valid()
      modifies this, driver
      ensures driver.Valid()
      ensures driver.log == old(driver.log) + [
        VertexBufferSet(0, vertexBuffer.buffer, U32(vertexBuffer.sizeVertex), 0),
        InputLayoutSet(vertexBuffer.layout)]
      ensures state == Replay(old(state), [
        VertexBufferSet(0, vertexBuffer.buffer, U32(vertexBuffer.sizeVertex), 0),
        InputLayoutSet(vertexBuffer.layout)])
      ensures context == old(context)
      ensures driver.memory == old(driver.memory) && driver.nextId == old(driver.nextId)
    {
      ReplayShort(state, VertexBufferSet(0, vertexBuffer.buffer, U32(vertexBuffer.sizeVertex), 0),
        InputLayoutSet(vertexBuffer.layout), InputLayoutSet(vertexBuffer.layout));
      driver.Record(VertexBufferSet(0, vertexBuffer.buffer, U32(vertexBuffer.sizeVertex), 0));
      driver.Record(InputLayoutSet(vertexBuffer.layout));
      state := state.(vertexInput := VertexInput(vertexBuffer.buffer, U32(vertexBuffer.sizeVertex), 0),
                      layout := Layout(vertexBuffer.layout));
    }

    /** `setIndexBuffer`: binds the index buffer with 32-bit unsigned indices at offset 0. */
    method SetIndexBuffer(driver: Driver, indexBuffer: Handle)
      requires driver.Valid()
      modifies this, driver
      ensures driver.Valid()
      ensures driver.log == old(driver.log) + [IndexBufferSet(indexBuffer, R32Uint, 0)]
      ensures state == Apply(old(state), IndexBufferSet(indexBuffer, R32Uint, 0))
      ensures context == old(context)
      ensures driver.memory == old(driver.memory) && driver.nextId == old(driver.nextId)
    {
      driver.Record(IndexBufferSet(indexBuffer, R32Uint, 0));
      state := state.(indexInput := IndexInput(indexBuffer, R32Uint, 0));
    }

    /** `drawTriangleList`: sets the triangle-list topology, then draws. */
    method DrawTriangleList(driver: Driver, vertexCount: nat, startVertexIndex: nat)
      requires driver.Valid()
      modifies this, driver
      ensures driver.Valid()
      ensures driver.log == old(driver.log) + [TopologySet(TriangleListTopology), Drawn(vertexCount, startVertexIndex)]
      ensures state == Apply(old(state), TopologySet(TriangleListTopology))
      ensures context == old(context)
      ensures driver.memory == old(driver.memory) && driver.nextId == old(driver.nextId)
    {
      driver.Record(TopologySet(TriangleListTopology));
      driver.Record(Drawn(vertexCount, startVertexIndex));
      state := state.(topology := PrimitiveTopology(TriangleListTopology));
    }

    /**
     * `drawIndexedTriangleList(index_count, start_vertex_index, start_index_location)`:
     * sets the triangle-list topology and draws, handing the driver the start
     * index location before the start vertex: the wrapper's second and third
     * parameters change places.
     */
    method DrawIndexedTriangleList(driver: Driver, indexCount: nat, startVertexIndex: nat, startIndexLocation: nat)
      requires driver.Valid()
      modifies this, driver
      ensures driver.Valid()
      ensures driver.log == old(driver.log) + [TopologySet(TriangleListTopology),
                                               DrawnIndexed(indexCount, startIndexLocation, startVertexIndex)]
      ensures state == Apply(old(state), TopologySet(TriangleListTopology))
      ensures context == old(context)
      ensures driver.memory == old(driver.memory) && driver.nextId == old(driver.nextId)
    {
      driver.Record(TopologySet(TriangleListTopology));
      driver.Record(DrawnIndexed(indexCount, startIndexLocation, startVertexIndex));
      state := state.(topology := PrimitiveTopology(TriangleListTopology));
    }

    /** `drawTriangleStrip`: sets the triangle-strip topology, then draws. */
    method DrawTriangleStrip(driver: Driver, vertexCount: nat, startVertexIndex: nat)
      requires driver.Valid()
      modifies this, driver
      ensures driver.Valid()
      ensures driver.log == old(driver.log) + [TopologySet(TriangleStripTopology), Drawn(vertexCount, startVertexIndex)]
      ensures state == Apply(old(state), TopologySet(TriangleStripTopology))
      ensures context == old(context)
      ensures driver.memory == old(driver.memory) && driver.nextId == old(driver.nextId)
    {
      driver.Record(TopologySet(TriangleStripTopology));
      driver.Record(Drawn(vertexCount, startVertexIndex));
      state := state.(topology := PrimitiveTopology(TriangleStripTopology));
    }

    /** `setViewportSize`: a viewport at the origin of the given size with depth range [0, 1]. */
    method SetViewportSize(driver: Driver, width: nat, height: nat)
      requires driver.Valid()
      modifies this, driver
      ensures driver.Valid()
      ensures driver.log == old(driver.log) + [ViewportSet(Viewport(0.0, 0.0, width as real, height as real, 0.0, 1.0))]
      ensures state == Apply(old(state), ViewportSet(Viewport(0.0, 0.0, width as real, height as real, 0.0, 1.0)))
      ensures context == old(context)
      ensures driver.memory == old(driver.memory) && driver.nextId == old(driver.nextId)
    {
      var vp := Viewport(0.0, 0.0, width as real, height as real, 0.0, 1.0);
      driver.Record(ViewportSet(vp));
      state := state.(viewport := Port(vp));
    }

    /** `setVertexShader`: binds the shader to the vertex stage, with no class instances. */
    method SetVertexShader(driver: Driver, vertexShader: Handle)
      requires driver.Valid()
      modifies this, driver
      ensures driver.Valid()
      ensures driver.log == old(driver.log) + [ShaderSet(VertexStage, vertexShader)]
      ensures state == Apply(old(state), ShaderSet(VertexStage, vertexShader))
      ensures context == old(context)
      ensures driver.memory == old(driver.memory) && driver.nextId == old(driver.nextId)
    {
      driver.Record(ShaderSet(VertexStage, vertexShader));
      state := state.(vertexShader := Bound(vertexShader));
    }

    /** `setPixelShader`: binds the shader to the pixel stage, with no class instances. */
    method SetPixelShader(driver: Driver, pixelShader: Handle)
      requires driver.Valid()
      modifies this, driver
      ensures driver.Valid()
      ensures driver.log == old(driver.log) + [ShaderSet(PixelStage, pixelShader)]
      ensures state == Apply(old(state), ShaderSet(PixelStage, pixelShader))
      ensures context == old(context)
      ensures driver.memory == old(driver.memory) && driver.nextId == old(driver.nextId)
    {
      driver.Record(ShaderSet(PixelStage, pixelShader));
      state := state.(pixelShader := Bound(pixelShader));
    }

    /**
     * `setConstantBuffer(VertexShader*, ConstantBuffer*)`: binds the buffer to
     * constant slot 0 of the vertex stage. The shader argument is not used.
     */
    method SetVertexConstantBuffer(driver: Driver, vertexShader: Handle, buffer: ConstantBuffer)
      requires driver.Valid()
      modifies this, driver
      ensures driver.Valid()
      ensures driver.log == old(driver.log) + [ConstantBufferSet(VertexStage, 0, buffer.buffer)]
      ensures state == Apply(old(state), ConstantBufferSet(VertexStage, 0, buffer.buffer))
      ensures context == old(context)
      ensures driver.memory == old(driver.memory) && driver.nextId == old(driver.nextId)
    {
      driver.Record(ConstantBufferSet(VertexStage, 0, buffer.buffer));
      state := state.(vertexConstants := Bound(buffer.buffer));
    }

    /**
     * `setConstantBuffer(PixelShader*, ConstantBuffer*)`: binds the buffer to
     * constant slot 0 of the pixel stage. The shader argument is not used.
     */
    method SetPixelConstantBuffer(driver: Driver, pixelShader: Handle, buffer: ConstantBuffer)
      requires driver.Valid()
      modifies this, driver
      ensures driver.Valid()
      ensures driver.log == old(driver.log) + [ConstantBufferSet(PixelStage, 0, buffer.buffer)]
      ensures state == Apply(old(state), ConstantBufferSet(PixelStage, 0, buffer.buffer))
      ensures context == old(context)
      ensures driver.memory == old(driver.memory) && driver.nextId == old(driver.nextId)
    {
      driver.Record(ConstantBufferSet(PixelStage, 0, buffer.buffer));
      state := state.(pixelConstants := Bound(buffer.buffer));
    }

    /** `release`: releases the immediate context without checking it and reports success. */
    method Release(driver: Driver) returns (ok: bool)
      requires driver.Valid() && context.Live?
      modifies driver
      ensures driver.Valid() && ok
      ensures driver.log == old(driver.log) + [Released(context.id)]
      ensures driver.memory == old(driver.memory) && driver.nextId == old(driver.nextId)
    {
      driver.Release(context.id);
      ok := true;
    }
  }
}
