/**
 * The Direct3D 11 / DXGI runtime as abstract state.
 *
 * The engine only ever asks the driver to create an object (and learns whether
 * it agreed), to release one, or to act on one. The model keeps the calls in a
 * log, numbers created objects in creation order, and keeps the bytes of every
 * buffer. Whether the driver agrees to a creation is not modelled: the caller
 * passes the driver's answer in.
 */
module Driver {
  import opened Base

  /** A COM interface pointer: null, or the object the driver created as number `id`. */
  datatype Handle = Null | Live(id: nat)

  /** D3D_DRIVER_TYPE values the engine tries. */
  datatype DriverType = Hardware | Warp | Reference

  /** The DXGI_FORMAT values the engine names. */
  datatype Format = R8G8B8A8Unorm | D24UnormS8Uint | R32G32B32Float | R32Uint

  /** D3D11_BIND_FLAG values the engine names. */
  datatype BindFlag = VertexBufferBind | IndexBufferBind | ConstantBufferBind | DepthStencilBind

  /** D3D11_BUFFER_DESC; every buffer of the engine has usage DEFAULT, no CPU access and no misc flags. */
  datatype BufferDesc = BufferDesc(byteWidth: nat, bind: BindFlag)

  /** D3D11_INPUT_ELEMENT_DESC of per-vertex data in input slot 0 with step rate 0. */
  datatype InputElement = InputElement(semantic: string, semanticIndex: nat, format: Format, offset: nat)

  /** DXGI_SWAP_CHAIN_DESC; usage is always RENDER_TARGET_OUTPUT. */
  datatype SwapChainDesc = SwapChainDesc(
    bufferCount: nat, width: nat, height: nat, format: Format,
    refreshNumerator: nat, refreshDenominator: nat, window: nat,
    sampleCount: nat, sampleQuality: nat, windowed: bool)

  /** D3D11_TEXTURE2D_DESC; usage DEFAULT, no CPU access and no misc flags. */
  datatype Texture2DDesc = Texture2DDesc(
    width: nat, height: nat, format: Format, bind: BindFlag,
    mipLevels: nat, arraySize: nat, sampleCount: nat, sampleQuality: nat)

  /** What a creation call asks the driver for. */
  datatype Resource =
    | Device(driverType: DriverType)
    | ImmediateContext
    | DxgiDevice
    | DxgiAdapter
    | DxgiFactory
    | Buffer(bufferDesc: BufferDesc)
    | InputLayout(elements: seq<InputElement>, shaderSize: nat)
    | SwapChainObject(swapDesc: SwapChainDesc)
    | BackBuffer(swapChain: nat)
    | RenderTargetView(texture: nat)
    | Texture2D(textureDesc: Texture2DDesc)
    | DepthStencilView(texture: nat)
    | CompiledCode(file: string, entryPoint: string, target: string)
    | CompileErrors(file: string)
    | Shader(kind: ShaderKind)

  /** The shader objects the engine wraps. */
  datatype ShaderKind = VertexShaderKind | PixelShaderKind | TextureShaderKind

  /** The programmable stages the engine binds shaders and constants to. */
  datatype Stage = VertexStage | PixelStage

  /** D3D11_PRIMITIVE_TOPOLOGY values the engine names. */
  datatype Topology = TriangleListTopology | TriangleStripTopology

  /** An RGBA colour of four floats. */
  datatype Color = Color(red: real, green: real, blue: real, alpha: real)

  /** D3D11_VIEWPORT. */
  datatype Viewport = Viewport(topLeftX: real, topLeftY: real, width: real, height: real, minDepth: real, maxDepth: real)

  /** One call into the driver, as the log records it. */
  datatype Event =
    | Created(resource: Resource, result: Handle)   // result is Null when the driver refused
    | Released(id: nat)
    | Resized(swapChain: nat, width: nat, height: nat)
    | FullscreenSet(swapChain: nat, fullscreen: bool)
    | Presented(swapChain: nat, syncInterval: nat)
    | Updated(buffer: nat)
    // calls on the immediate context
    | RenderTargetCleared(rtv: Handle, color: Color)
    | DepthStencilCleared(dsv: Handle, depth: real, stencil: nat)
    | RenderTargetsSet(rtv: Handle, dsv: Handle)
    | VertexBufferSet(slot: nat, vertexBuffer: Handle, stride: nat, offset: nat)
    | InputLayoutSet(layout: Handle)
    | IndexBufferSet(indexBuffer: Handle, format: Format, offset: nat)
    | TopologySet(topology: Topology)
    | Drawn(vertexCount: nat, startVertex: nat)
    | DrawnIndexed(indexCount: nat, startIndex: nat, baseVertex: nat)
    | ViewportSet(viewport: Viewport)
    | ShaderSet(stage: Stage, shader: Handle)
    | ConstantBufferSet(stage: Stage, slot: nat, constantBuffer: Handle)

  /** What one call does to the set of live objects. */
  function Step(live: set<nat>, e: Event): set<nat>
  {
    if e.Created? && e.result.Live? then live + {e.result.id}
    else if e.Released? then live - {e.id}
    else live
  }

  /** The objects a log of calls leaves alive: created and not released since. */
  function LiveIds(log: seq<Event>): set<nat>
  {
    if log == [] then {} else Step(LiveIds(log[..|log| - 1]), log[|log| - 1])
  }

  /** The live set after further calls `es`, replayed front to back from `live`. */
  function LiveThrough(live: set<nat>, es: seq<Event>): set<nat>
    decreases |es|
  {
    if es == [] then live else LiveThrough(Step(live, es[0]), es[1..])
  }

  /** The release a `if (p) p->Release();` makes: one call when the pointer is set, none when it is null. */
  function ReleaseIfSet(h: Handle): (calls: seq<Event>)
    ensures |calls| <= 1
    ensures calls == [] <==> h.Null?
  {
    if h.Live? then [Released(h.id)] else []
  }

  /** The objects a log of calls ever created. */
  function CreatedIds(log: seq<Event>): set<nat>
  {
    if log == [] then {}
    else
      var e := log[|log| - 1];
      if e.Created? && e.result.Live? then CreatedIds(log[..|log| - 1]) + {e.result.id}
      else CreatedIds(log[..|log| - 1])
  }

  /** Only created objects can be alive. */
  lemma {:induction false} LiveAreCreated(log: seq<Event>)
    ensures LiveIds(log) <= CreatedIds(log)
  {
    if log != [] {
      LiveAreCreated(log[..|log| - 1]);
    }
  }

  /** Appending one call to the log changes the live set only as that call says. */
  lemma LiveAfter(log: seq<Event>, e: Event)
    ensures LiveIds(log + [e]) ==
      if e.Created? && e.result.Live? then LiveIds(log) + {e.result.id}
      else if e.Released? then LiveIds(log) - {e.id}
      else LiveIds(log)
    ensures CreatedIds(log + [e]) ==
      if e.Created? && e.result.Live? then CreatedIds(log) + {e.result.id}
      else CreatedIds(log)
  {
    assert (log + [e])[..|log|] == log;
  }

  /** Replaying a log and then more calls is replaying the further calls from the log's live set. */
  lemma {:induction false} LiveConcat(log: seq<Event>, es: seq<Event>)
    ensures LiveIds(log + es) == LiveThrough(LiveIds(log), es)
    decreases |es|
  {
    if es == [] {
      assert log + es == log;
    } else {
      LiveAfter(log, es[0]);
      assert log + es == (log + [es[0]]) + es[1..];
      LiveConcat(log + [es[0]], es[1..]);
    }
  }

  /** Replaying two runs of calls one after the other. */
  lemma {:induction false} LiveThroughAppend(live: set<nat>, es: seq<Event>, fs: seq<Event>)
    ensures LiveThrough(live, es + fs) == LiveThrough(LiveThrough(live, es), fs)
    decreases |es|
  {
    if es == [] {
      assert es + fs == fs;
    } else {
      assert (es + fs)[1..] == es[1..] + fs;
      LiveThroughAppend(Step(live, es[0]), es[1..], fs);
    }
  }

  /** Replaying a short run of calls is stepping through them one by one. */
  lemma LiveThroughShort(live: set<nat>, e1: Event, e2: Event, e3: Event)
    ensures LiveThrough(live, []) == live
    ensures LiveThrough(live, [e1]) == Step(live, e1)
    ensures LiveThrough(live, [e1, e2]) == Step(Step(live, e1), e2)
    ensures LiveThrough(live, [e1, e2, e3]) == Step(Step(Step(live, e1), e2), e3)
  {
    assert [e1][1..] == [];
    assert [e1, e2][1..] == [e2] && [e2][1..] == [];
    assert [e1, e2, e3][1..] == [e2, e3] && [e2, e3][1..] == [e3] && [e3][1..] == [];
    assert LiveThrough(Step(live, e1), [e2]) == Step(Step(live, e1), e2);
    assert LiveThrough(Step(Step(live, e1), e2), [e3]) == Step(Step(Step(live, e1), e2), e3);
    assert LiveThrough(Step(live, e1), [e2, e3]) == LiveThrough(Step(Step(live, e1), e2), [e3]);
  }

  class Driver {
    /** The number the next created object gets. */
    var nextId: nat
    /** Every call the engine made, oldest first. */
    var log: seq<Event>
    /** The bytes held by each buffer object. */
    var memory: map<nat, seq<byte>>

    ghost predicate Valid()
      reads this
    {
      forall id | id in CreatedIds(log) :: id < nextId
    }

    constructor ()
      ensures Valid() && nextId == 0 && log == [] && memory == map[]
    {
      nextId, log, memory := 0, [], map[];
    }

    /** Asks for `r`; `accepted` is the driver's answer. A refused request writes null. */
    method Create(r: Resource, accepted: bool) returns (h: Handle)
      requires Valid()
      modifies this
      ensures Valid()
      ensures h == if accepted then Live(old(nextId)) else Null
      ensures nextId == if accepted then old(nextId) + 1 else old(nextId)
      ensures log == old(log) + [Created(r, h)]
      ensures memory == old(memory)
    {
      h := if accepted then Live(nextId) else Null;
      LiveAfter(log, Created(r, h));
      log := log + [Created(r, h)];
      if accepted {
        nextId := nextId + 1;
      }
    }

    /** CreateBuffer with initial data: the driver copies the first ByteWidth bytes of `initialData`. */
    method CreateBuffer(desc: BufferDesc, initialData: seq<byte>, accepted: bool) returns (h: Handle)
      requires Valid()
      requires desc.byteWidth <= |initialData|
      modifies this
      ensures Valid()
      ensures h == if accepted then Live(old(nextId)) else Null
      ensures nextId == if accepted then old(nextId) + 1 else old(nextId)
      ensures log == old(log) + [Created(Buffer(desc), h)]
      ensures memory == if accepted then old(memory)[h.id := initialData[..desc.byteWidth]] else old(memory)
    {
      h := Create(Buffer(desc), accepted);
      if accepted {
        memory := memory[h.id := initialData[..desc.byteWidth]];
      }
    }

    /** `Release()` on the object numbered `id`. */
    method Release(id: nat)
      requires Valid()
      modifies this
      ensures Valid()
      ensures log == old(log) + [Released(id)]
      ensures nextId == old(nextId) && memory == old(memory)
    {
      LiveAfter(log, Released(id));
      log := log + [Released(id)];
    }

    /** A call that neither creates, releases nor writes a buffer (resize, present, a pipeline call). */
    method Record(e: Event)
      requires Valid()
      requires !e.Created? && !e.Released? && !e.Updated?
      modifies this
      ensures Valid()
      ensures log == old(log) + [e]
      ensures nextId == old(nextId) && memory == old(memory)
    {
      LiveAfter(log, e);
      log := log + [e];
    }

    /**
     * UpdateSubresource on a whole buffer (no destination box): the driver copies
     * as many bytes of `data` as the buffer holds.
     */
    method UpdateSubresource(id: nat, data: seq<byte>)
      requires Valid()
      requires id in memory && |memory[id]| <= |data|
      modifies this
      ensures Valid()
      ensures log == old(log) + [Updated(id)]
      ensures memory == old(memory)[id := data[..|old(memory)[id]|]]
      ensures nextId == old(nextId)
    {
      LiveAfter(log, Updated(id));
      log := log + [Updated(id)];
      memory := memory[id := data[..|memory[id]|]];
    }
  }
}
