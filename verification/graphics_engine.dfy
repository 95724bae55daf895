/**
 * `GraphicsEngine`: the single engine object that owns the Direct3D device,
 * its immediate context, the DXGI objects behind it and the blob of the
 * shader compiled last.
 *
 * `init` tries the driver types from best to worst and keeps the first device
 * the driver grants; whether a driver type is granted is the parameter
 * `succeeds`.
 */
module Engine {
  import opened Base
  import opened Driver
  import opened Context

  /** The driver types `init` tries, best first. */
  const DriverTypes: seq<DriverType> := [Hardware, Warp, Reference]

  /**
   * The position in DriverTypes of the first type the driver grants, from
   * position `i` on; 3 when none of them is granted.
   */
  function FirstSuccessFrom(succeeds: DriverType -> bool, i: nat): (k: nat)
    requires i <= 3
    ensures i <= k <= 3
    ensures k < 3 ==> succeeds(DriverTypes[k])
    ensures forall j | i <= j < k :: !succeeds(DriverTypes[j])
    decreases 3 - i
  {
    if i == 3 then 3
    else if succeeds(DriverTypes[i]) then i
    else FirstSuccessFrom(succeeds, i + 1)
  }

  /** The position of the first granted driver type, or 3. */
  function FirstSuccess(succeeds: DriverType -> bool): (k: nat)
    ensures k <= 3
    ensures k < 3 ==> succeeds(DriverTypes[k])
    ensures forall j | 0 <= j < k :: !succeeds(DriverTypes[j])
    ensures k == 3 <==> forall t | t in DriverTypes :: !succeeds(t)
  {
    FirstSuccessFrom(succeeds, 0)
  }

  /** The two objects one refused `D3D11CreateDevice` call writes: both null. */
  function FailedAttempt(t: DriverType): seq<Event>
  {
    [Created(Device(t), Null), Created(ImmediateContext, Null)]
  }

  /** The calls of a run of refused attempts, in order. */
  function Failures(types: seq<DriverType>): seq<Event>
  {
    if types == [] then [] else Failures(types[..|types| - 1]) + FailedAttempt(types[|types| - 1])
  }

  /**
   * The granted attempt and what follows it, when the next created object will
   * be number `n`: the device and its immediate context, then the DXGI device,
   * adapter and factory obtained from it.
   */
  function InitChain(t: DriverType, n: nat): seq<Event>
  {
    [Created(Device(t), Live(n)), Created(ImmediateContext, Live(n + 1)),
     Created(DxgiDevice, Live(n + 2)), Created(DxgiAdapter, Live(n + 3)), Created(DxgiFactory, Live(n + 4))]
  }

  /** The driver types a run of calls asks a device for, in order. */
  function DeviceRequests(calls: seq<Event>): seq<DriverType>
    decreases |calls|
  {
    if calls == [] then []
    else (if calls[0].Created? && calls[0].resource.Device? then [calls[0].resource.driverType] else [])
         + DeviceRequests(calls[1..])
  }

  lemma {:induction false} DeviceRequestsAppend(calls: seq<Event>, more: seq<Event>)
    ensures DeviceRequests(calls + more) == DeviceRequests(calls) + DeviceRequests(more)
    decreases |calls|
  {
    if calls == [] {
      assert calls + more == more;
    } else {
      assert (calls + more)[1..] == calls[1..] + more;
      DeviceRequestsAppend(calls[1..], more);
    }
  }

  /** A device request followed by calls that ask for no device. */
  lemma {:induction false} OneDeviceRequest(calls: seq<Event>)
    requires |calls| > 0 && calls[0].Created? && calls[0].resource.Device?
    requires forall i | 1 <= i < |calls| :: !calls[i].Created? || !calls[i].resource.Device?
    ensures DeviceRequests(calls) == [calls[0].resource.driverType]
    decreases |calls|
  {
    var rest := calls[1..];
    if rest != [] {
      assert rest[0] == calls[1];
      assert DeviceRequests(rest) == DeviceRequests(rest[1..]);
      assert rest[1..] == [calls[0]][1..] + rest[1..];
      var shifted := [calls[0]] + rest[1..];
      assert shifted[1..] == rest[1..];
      forall i | 1 <= i < |shifted|
        ensures !shifted[i].Created? || !shifted[i].resource.Device?
      {
        assert shifted[i] == calls[i + 1];
      }
      OneDeviceRequest(shifted);
    }
  }

  lemma {:induction false} FailuresRequest(types: seq<DriverType>)
    ensures DeviceRequests(Failures(types)) == types
  {
    if types != [] {
      var init := types[..|types| - 1];
      var t := types[|types| - 1];
      FailuresRequest(init);
      DeviceRequestsAppend(Failures(init), FailedAttempt(t));
      OneDeviceRequest(FailedAttempt(t));
      assert init + [t] == types;
    }
  }

  /**
   * `init` asks for devices in the order hardware, WARP, reference, and stops
   * at the first one granted: it asks for at most three, every type it asks
   * for before the last was refused, and the last was granted exactly when
   * `init` succeeds.
   */
  lemma InitTriesInOrder(succeeds: DriverType -> bool, n: nat)
    ensures var k := FirstSuccess(succeeds);
      var calls := Failures(DriverTypes[..k]) + if k < 3 then InitChain(DriverTypes[k], n) else [];
      && DeviceRequests(calls) == DriverTypes[..if k < 3 then k + 1 else 3]
      && |DeviceRequests(calls)| <= 3
      && (forall j | 0 <= j < |DeviceRequests(calls)| - 1 :: !succeeds(DeviceRequests(calls)[j]))
  {
    var k := FirstSuccess(succeeds);
    FailuresRequest(DriverTypes[..k]);
    if k < 3 {
      var chain := InitChain(DriverTypes[k], n);
      DeviceRequestsAppend(Failures(DriverTypes[..k]), chain);
      OneDeviceRequest(chain);
      assert DriverTypes[..k] + [DriverTypes[k]] == DriverTypes[..k + 1];
    } else {
      assert Failures(DriverTypes[..k]) + [] == Failures(DriverTypes[..k]);
    }
  }

  /**
   * The DXGI device, its adapter and the adapter's factory, each obtained
   * from the one before; the driver is taken to grant all three.
   */
  method CreateDxgiChain(driver: Driver) returns (dxgiDevice: Handle, dxgiAdapter: Handle, dxgiFactory: Handle)
    requires driver.Valid()
    modifies driver
    ensures driver.Valid() && driver.memory == old(driver.memory)
    ensures var n := old(driver.nextId);
      && dxgiDevice == Live(n) && dxgiAdapter == Live(n + 1) && dxgiFactory == Live(n + 2)
      && driver.nextId == n + 3
      && driver.log == old(driver.log) + [Created(DxgiDevice, Live(n)), Created(DxgiAdapter, Live(n + 1)), Created(DxgiFactory, Live(n + 2))]
  {
    dxgiDevice := driver.Create(DxgiDevice, true);
    dxgiAdapter := driver.Create(DxgiAdapter, true);
    dxgiFactory := driver.Create(DxgiFactory, true);
  }

  /**
   * The loop of `init`: one `D3D11CreateDevice` call per driver type, best
   * first, until one is granted. Returns the device and immediate context the
   * last call wrote: both null when every type was refused.
   */
  method CreateDevice(driver: Driver, succeeds: DriverType -> bool) returns (device: Handle, context: Handle)
    requires driver.Valid()
    modifies driver
    ensures driver.Valid() && driver.memory == old(driver.memory)
    ensures var k := FirstSuccess(succeeds);
      && driver.log == old(driver.log) + Failures(DriverTypes[..k])
                       + (if k < 3 then [Created(Device(DriverTypes[k]), device), Created(ImmediateContext, context)] else [])
      && device == (if k < 3 then Live(old(driver.nextId)) else Null)
      && context == (if k < 3 then Live(old(driver.nextId) + 1) else Null)
      && driver.nextId == old(driver.nextId) + (if k < 3 then 2 else 0)
  {
    ghost var k := FirstSuccess(succeeds);
    var index := 0;
    device, context := Null, Null;
    while index < 3
      invariant index <= k
      invariant driver.Valid() && driver.nextId == old(driver.nextId) && driver.memory == old(driver.memory)
      invariant driver.log == old(driver.log) + Failures(DriverTypes[..index])
      invariant device == Null && context == Null
    {
      var t := DriverTypes[index];
      device := driver.Create(Device(t), succeeds(t));
      context := driver.Create(ImmediateContext, succeeds(t));
      if succeeds(t) {
        return;
      }
      assert DriverTypes[..index + 1][..index] == DriverTypes[..index];
      index := index + 1;
    }
    assert driver.log == old(driver.log) + Failures(DriverTypes[..k]) + [];
  }

  /**
   * The calls one shader compilation makes when the next created object will
   * be number `n`: the compiled code (null on failure), then the error blob
   * when the compiler produced one, released again only when the compilation
   * failed.
   */
  function CompileLog(file: string, entryPoint: string, target: string, ok: bool, errorBlob: bool, n: nat): seq<Event>
  {
    [Created(CompiledCode(file, entryPoint, target), if ok then Live(n) else Null)]
    + if !errorBlob then []
      else if ok then [Created(CompileErrors(file), Live(n + 1))]
      else [Created(CompileErrors(file), Live(n)), Released(n)]
  }

  /**
   * A failed compilation leaves nothing new alive. A successful one leaves the
   * code blob alive and, when the compiler reported warnings, the error blob
   * too, which nothing ever releases.
   */
  lemma CompileLeavesAlive(live: set<nat>, file: string, entryPoint: string, target: string, ok: bool, errorBlob: bool, n: nat)
    requires forall id | id in live :: id < n
    ensures LiveThrough(live, CompileLog(file, entryPoint, target, ok, errorBlob, n)) ==
            live + (if ok then {n} else {}) + (if ok && errorBlob then {n + 1} else {})
  {
    var calls := CompileLog(file, entryPoint, target, ok, errorBlob, n);
    if !errorBlob {
      LiveThroughShort(live, calls[0], calls[0], calls[0]);
    } else if ok {
      LiveThroughShort(live, calls[0], calls[1], calls[1]);
    } else {
      assert n !in live;
      LiveThroughShort(live, calls[0], calls[1], calls[2]);
    }
  }

  /** A shader object of the engine (`VertexShader`, `PixelShader` or `TextureShader`) and the driver object it holds. */
  class ShaderObject {
    const kind: ShaderKind
    var resource: Handle

    constructor (kind: ShaderKind)
      ensures this.kind == kind && resource == Null
    {
      this.kind := kind;
      resource := Null;
    }
  }

  class GraphicsEngine {
    var device: Handle
    var immContext: Handle
    var dxgiDevice: Handle
    var dxgiAdapter: Handle
    var dxgiFactory: Handle
    /** `m_blob`: the code of the shader compiled last. */
    var blob: Handle
    /** `m_imm_device_context`: the wrapper around the immediate context. */
    var immDeviceContext: DeviceContext?

    /** All pointers start null. */
    predicate Unset()
      reads this
    {
      && device == Null && immContext == Null && dxgiDevice == Null && dxgiAdapter == Null
      && dxgiFactory == Null && blob == Null && immDeviceContext == null
    }

    constructor ()
      ensures Unset()
    {
      device, immContext, dxgiDevice, dxgiAdapter, dxgiFactory, blob := Null, Null, Null, Null, Null, Null;
      immDeviceContext := null;
    }

    /**
     * `init`: one device request per driver type until the driver grants
     * one; a refused request leaves device and context null. Without a
     * device it returns false. Otherwise it wraps the immediate context and
     * obtains the DXGI device, adapter and factory, whose results it does not
     * check, and returns true.
     */
    method Init(driver: Driver, succeeds: DriverType -> bool) returns (ok: bool)
      requires driver.Valid()
      modifies this, driver
      ensures driver.Valid()
      ensures ok <==> FirstSuccess(succeeds) < 3
      ensures driver.log == old(driver.log) + Failures(DriverTypes[..FirstSuccess(succeeds)])
        + if ok then InitChain(DriverTypes[FirstSuccess(succeeds)], old(driver.nextId)) else []
      ensures driver.memory == old(driver.memory)
      ensures driver.nextId == old(driver.nextId) + if ok then 5 else 0
      ensures blob == old(blob)
      ensures !ok ==> && device == Null && immContext == Null
                      && dxgiDevice == old(dxgiDevice) && dxgiAdapter == old(dxgiAdapter)
                      && dxgiFactory == old(dxgiFactory) && immDeviceContext == old(immDeviceContext)
      ensures ok ==> var n := old(driver.nextId);
        && device == Live(n) && immContext == Live(n + 1)
        && dxgiDevice == Live(n + 2) && dxgiAdapter == Live(n + 3) && dxgiFactory == Live(n + 4)
        && immDeviceContext != null && fresh(immDeviceContext)
        && immDeviceContext.context == immContext && immDeviceContext.state == Initial
    {
      device, immContext := CreateDevice(driver, succeeds);
      if device.Null? {
        return false;
      }
      immDeviceContext := new DeviceContext(immContext);
      dxgiDevice, dxgiAdapter, dxgiFactory := CreateDxgiChain(driver);
      ok := true;
    }

    /**
     * `release`: releases the DXGI device, adapter and factory, the immediate
     * context (through its wrapper) and finally the device, checking none of
     * them, and reports success.
     */
    method Release(driver: Driver) returns (ok: bool)
      requires driver.Valid()
      requires device.Live? && dxgiDevice.Live? && dxgiAdapter.Live? && dxgiFactory.Live?
      requires immDeviceContext != null && immDeviceContext.context.Live?
      modifies driver
      ensures driver.Valid() && ok
      ensures driver.log == old(driver.log) + [Released(dxgiDevice.id), Released(dxgiAdapter.id), Released(dxgiFactory.id),
                                               Released(immDeviceContext.context.id), Released(device.id)]
      ensures driver.memory == old(driver.memory) && driver.nextId == old(driver.nextId)
    {
      driver.Release(dxgiDevice.id);
      driver.Release(dxgiAdapter.id);
      driver.Release(dxgiFactory.id);
      ok := immDeviceContext.Release(driver);
      driver.Release(device.id);
      ok := true;
    }

    /** `getImmediateDeviceContext`. */
    function ImmediateDeviceContext(): (c: DeviceContext?)
      reads this
      ensures c == immDeviceContext
    {
      immDeviceContext
    }

    /**
     * `createVertexShader`, `createPixelShader`, `createTextureShader`: a new
     * shader object whose `init` asks the driver for its object. When `init`
     * fails the partial object, which holds nothing, is released and null is
     * returned; otherwise the object is returned.
     */
    method CreateShader(driver: Driver, kind: ShaderKind, initAccepted: bool) returns (s: ShaderObject?)
      requires driver.Valid()
      modifies driver
      ensures driver.Valid()
      ensures s == null <==> !initAccepted
      ensures driver.log == old(driver.log) + [Created(Shader(kind), if initAccepted then Live(old(driver.nextId)) else Null)]
      ensures driver.memory == old(driver.memory)
      ensures s != null ==> fresh(s) && s.kind == kind && s.resource == Live(old(driver.nextId))
      ensures driver.nextId == old(driver.nextId) + if initAccepted then 1 else 0
    {
      s := new ShaderObject(kind);
      s.resource := driver.Create(Shader(kind), initAccepted);
      if s.resource.Null? {
        return null;
      }
    }

    /**
     * `compileVertexShader` / `compilePixelShader` with the target profile
     * `target`: the compiler's result is written to `blob` (null when it
     * fails). `compiled` is the compiler's answer, the size of the code it
     * produced; `errorBlob` says whether it also produced an error blob
     * (errors on failure, warnings on success). On failure the error blob is
     * released, false is returned and the caller's code pointer and size are
     * left as they were; on success they receive the blob and its size, and
     * an error blob is kept (see CompileLeavesAlive).
     */
    method Compile(driver: Driver, file: string, entryPoint: string, target: string,
                   compiled: Option<nat>, errorBlob: bool, code: Handle, size: nat)
      returns (ok: bool, codeOut: Handle, sizeOut: nat)
      requires driver.Valid()
      modifies this, driver
      ensures driver.Valid()
      ensures ok <==> compiled.Some?
      ensures blob == if ok then Live(old(driver.nextId)) else Null
      ensures ok ==> codeOut == blob && sizeOut == compiled.value
      ensures !ok ==> codeOut == code && sizeOut == size
      ensures driver.log == old(driver.log) + CompileLog(file, entryPoint, target, ok, errorBlob, old(driver.nextId))
      ensures driver.nextId == old(driver.nextId) + (if ok then 1 else 0) + (if errorBlob then 1 else 0)
      ensures driver.memory == old(driver.memory)
      ensures device == old(device) && immContext == old(immContext) && immDeviceContext == old(immDeviceContext)
      ensures dxgiDevice == old(dxgiDevice) && dxgiAdapter == old(dxgiAdapter) && dxgiFactory == old(dxgiFactory)
    {
      blob := driver.Create(CompiledCode(file, entryPoint, target), compiled.Some?);
      var errors := Null;
      if errorBlob {
        errors := driver.Create(CompileErrors(file), true);
      }
      if compiled.None? {
        if errors.Live? {
          driver.Release(errors.id);
        }
        return false, code, size;
      }
      ok, codeOut, sizeOut := true, blob, compiled.value;
    }

    /** `compileVertexShader`: compiles for the `vs_5_0` profile. */
    method CompileVertexShader(driver: Driver, file: string, entryPoint: string,
                               compiled: Option<nat>, errorBlob: bool, code: Handle, size: nat)
      returns (ok: bool, codeOut: Handle, sizeOut: nat)
      requires driver.Valid()
      modifies this, driver
      ensures driver.Valid()
      ensures ok <==> compiled.Some?
      ensures blob == if ok then Live(old(driver.nextId)) else Null
      ensures ok ==> codeOut == blob && sizeOut == compiled.value
      ensures !ok ==> codeOut == code && sizeOut == size
      ensures driver.log == old(driver.log) + CompileLog(file, entryPoint, "vs_5_0", ok, errorBlob, old(driver.nextId))
      ensures driver.nextId == old(driver.nextId) + (if ok then 1 else 0) + (if errorBlob then 1 else 0)
      ensures driver.memory == old(driver.memory)
      ensures device == old(device) && immContext == old(immContext) && immDeviceContext == old(immDeviceContext)
      ensures dxgiDevice == old(dxgiDevice) && dxgiAdapter == old(dxgiAdapter) && dxgiFactory == old(dxgiFactory)
    {
      ok, codeOut, sizeOut := Compile(driver, file, entryPoint, "vs_5_0", compiled, errorBlob, code, size);
    }

    /** `compilePixelShader`: compiles for the `ps_5_0` profile. */
    method CompilePixelShader(driver: Driver, file: string, entryPoint: string,
                              compiled: Option<nat>, errorBlob: bool, code: Handle, size: nat)
      returns (ok: bool, codeOut: Handle, sizeOut: nat)
      requires driver.Valid()
      modifies this, driver
      ensures driver.Valid()
      ensures ok <==> compiled.Some?
      ensures blob == if ok then Live(old(driver.nextId)) else Null
      ensures ok ==> codeOut == blob && sizeOut == compiled.value
      ensures !ok ==> codeOut == code && sizeOut == size
      ensures driver.log == old(driver.log) + CompileLog(file, entryPoint, "ps_5_0", ok, errorBlob, old(driver.nextId))
      ensures driver.nextId == old(driver.nextId) + (if ok then 1 else 0) + (if errorBlob then 1 else 0)
      ensures driver.memory == old(driver.memory)
      ensures device == old(device) && immContext == old(immContext) && immDeviceContext == old(immDeviceContext)
      ensures dxgiDevice == old(dxgiDevice) && dxgiAdapter == old(dxgiAdapter) && dxgiFactory == old(dxgiFactory)
    {
      ok, codeOut, sizeOut := Compile(driver, file, entryPoint, "ps_5_0", compiled, errorBlob, code, size);
    }

    /** `releaseCompiledShader`: releases the blob when it is set, and leaves the pointer as it is. */
    method ReleaseCompiledShader(driver: Driver)
      requires driver.Valid()
      modifies driver
      ensures driver.Valid()
      ensures driver.log == old(driver.log) + ReleaseIfSet(blob)
      ensures driver.memory == old(driver.memory) && driver.nextId == old(driver.nextId)
    {
      if blob.Live? {
        driver.Release(blob.id);
      }
    }
  }

  /**
   * A successful compile followed by two `releaseCompiledShader` calls releases
   * the same blob twice, because the pointer is not reset. Returns how often
   * the blob was released.
   */
  method ReleaseCompiledShaderTwice() returns (releases: nat)
    ensures releases == 2
  {
    var driver := new Driver();
    var engine := new GraphicsEngine();
    var ok, code, size := engine.CompileVertexShader(driver, "VertexShader.hlsl", "vsmain", Some(4), false, Null, 0);
    var compiled := engine.blob;
    assert compiled == Live(0);
    engine.ReleaseCompiledShader(driver);
    engine.ReleaseCompiledShader(driver);
    releases := multiset(driver.log)[Released(compiled.id)];
  }

  /** Releasing the code blob of a compilation with warnings, on a fresh driver, leaves only the error blob alive. */
  lemma WarningsOutliveCode(file: string, entryPoint: string, target: string)
    ensures LiveIds(CompileLog(file, entryPoint, target, true, true, 0) + [Released(0)]) == {1}
  {
    var calls := CompileLog(file, entryPoint, target, true, true, 0);
    CompileLeavesAlive({}, file, entryPoint, target, true, true, 0);
    LiveConcat([], calls + [Released(0)]);
    assert [] + (calls + [Released(0)]) == calls + [Released(0)];
    LiveThroughAppend({}, calls, [Released(0)]);
    LiveThroughShort({0, 1}, Released(0), Released(0), Released(0));
  }

  /**
   * A compilation that succeeds with warnings, followed by
   * `releaseCompiledShader`, leaves the error blob alive: the code blob is
   * released, the warnings are not. Returns the objects left alive.
   */
  method CompileWithWarnings() returns (live: set<nat>)
    ensures live == {1}
  {
    var driver := new Driver();
    var engine := new GraphicsEngine();
    var file, entryPoint := "VertexShader.hlsl", "vsmain";
    var ok, code, size := engine.CompileVertexShader(driver, file, entryPoint, Some(4), true, Null, 0);
    var calls := CompileLog(file, entryPoint, "vs_5_0", true, true, 0);
    assert driver.log == calls && engine.blob == Live(0) by {
      assert [] + calls == calls;
    }
    engine.ReleaseCompiledShader(driver);
    WarningsOutliveCode(file, entryPoint, "vs_5_0");
    live := LiveIds(driver.log);
  }

  /** The objects `init` creates and `release` releases, in the order `release` releases them. */
  function ReleaseChain(n: nat): seq<Event>
  {
    [Released(n + 2), Released(n + 3), Released(n + 4), Released(n + 1), Released(n)]
  }

  /** Refused attempts create nothing. */
  lemma {:induction false} FailuresKeepLive(live: set<nat>, types: seq<DriverType>)
    ensures LiveThrough(live, Failures(types)) == live
  {
    if types != [] {
      var init := types[..|types| - 1];
      var t := types[|types| - 1];
      FailuresKeepLive(live, init);
      LiveThroughAppend(live, Failures(init), FailedAttempt(t));
      LiveThroughShort(live, Created(Device(t), Null), Created(ImmediateContext, Null), Created(ImmediateContext, Null));
    }
  }

  /** `release` releases exactly the five objects a successful `init` created. */
  lemma ChainReleased(live: set<nat>, t: DriverType, n: nat)
    requires forall id | id in live :: id < n
    ensures LiveThrough(live, InitChain(t, n) + ReleaseChain(n)) == live
  {
    var c1 := [Created(Device(t), Live(n)), Created(ImmediateContext, Live(n + 1)), Created(DxgiDevice, Live(n + 2))];
    var c2 := [Created(DxgiAdapter, Live(n + 3)), Created(DxgiFactory, Live(n + 4))];
    var r1 := [Released(n + 2), Released(n + 3), Released(n + 4)];
    var r2 := [Released(n + 1), Released(n)];
    var s1 := live + {n, n + 1, n + 2};
    var s2 := s1 + {n + 3, n + 4};
    var s3 := s2 - {n + 2} - {n + 3} - {n + 4};
    assert LiveThrough(live, c1) == s1 by { LiveThroughShort(live, c1[0], c1[1], c1[2]); }
    assert LiveThrough(s1, c2) == s2 by { LiveThroughShort(s1, c2[0], c2[1], c2[1]); }
    assert LiveThrough(s2, r1) == s3 by { LiveThroughShort(s2, r1[0], r1[1], r1[2]); }
    assert LiveThrough(s3, r2) == live by {
      LiveThroughShort(s3, r2[0], r2[1], r2[1]);
      assert s3 - {n + 1} - {n} == live;
    }
    assert InitChain(t, n) + ReleaseChain(n) == c1 + (c2 + (r1 + r2));
    LiveThroughAppend(live, c1, c2 + (r1 + r2));
    LiveThroughAppend(s1, c2, r1 + r2);
    LiveThroughAppend(s2, r1, r2);
  }

  /**
   * A successful `init` followed by `release` leaves no object of the driver
   * alive; a failed `init` never created one. Returns the objects left alive.
   */
  method InitThenRelease(succeeds: DriverType -> bool) returns (live: set<nat>)
    ensures live == {}
  {
    var driver := new Driver();
    var engine := new GraphicsEngine();
    var ok := engine.Init(driver, succeeds);
    var k := FirstSuccess(succeeds);
    FailuresKeepLive({}, DriverTypes[..k]);
    if ok {
      ok := engine.Release(driver);
      var t := DriverTypes[k];
      assert driver.log == Failures(DriverTypes[..k]) + (InitChain(t, 0) + ReleaseChain(0));
      LiveConcat([], driver.log);
      assert [] + driver.log == driver.log;
      LiveThroughAppend({}, Failures(DriverTypes[..k]), InitChain(t, 0) + ReleaseChain(0));
      ChainReleased({}, t, 0);
    } else {
      assert driver.log == Failures(DriverTypes[..k]);
      LiveConcat([], driver.log);
      assert [] + driver.log == driver.log;
    }
    live := LiveIds(driver.log);
  }

  /** The function-local static behind `GraphicsEngine::get`: no engine until the first call. */
  class EngineHolder {
    var engine: GraphicsEngine?

    constructor ()
      ensures engine == null
    {
      engine := null;
    }

    /** `get`: the first call makes the engine, every call returns that one. */
    method Get() returns (e: GraphicsEngine)
      modifies this
      ensures engine == e
      ensures old(engine) != null ==> e == old(engine)
      ensures old(engine) == null ==> fresh(e) && e.Unset()
    {
      if engine == null {
        engine := new GraphicsEngine();
      }
      e := engine;
    }
  }

  /** Two calls of `get` return the same engine. */
  method GetIsSingleton() returns (same: bool)
    ensures same
  {
    var holder := new EngineHolder();
    var first := holder.Get();
    var second := holder.Get();
    same := first == second;
  }
}
