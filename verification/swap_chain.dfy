/**
 * `SwapChain`: the window's back buffer with a render-target view on it and a
 * depth-stencil view on a depth texture of the same size.
 *
 * The constructor and `LoadViews` run the same four creation steps (back
 * buffer, render-target view, depth texture, depth-stencil view), each of
 * which throws when the driver refuses; only their messages differ. The
 * texture a view is made from is released as soon as the view exists, so
 * the object ends up holding the swap chain and the two views.
 */
module Swap {
  import opened Base
  import opened Driver

  /** The description the constructor fills in: one RGBA8 buffer of the window's size, 60/1 Hz, windowed, no multisampling. */
  function ChainDesc(window: nat, width: nat, height: nat): SwapChainDesc
  {
    SwapChainDesc(1, width, height, R8G8B8A8Unorm, 60, 1, window, 1, 0, true)
  }

  /** The depth buffer: a single-level D24S8 texture of the given size bound as depth-stencil. */
  function DepthDesc(width: nat, height: nat): Texture2DDesc
  {
    Texture2DDesc(width, height, D24UnormS8Uint, DepthStencilBind, 1, 1, 1, 0)
  }

  /** The driver's answers to the four view steps, in the order they are asked. */
  datatype ViewAnswers = ViewAnswers(backBuffer: bool, renderTarget: bool, depthTexture: bool, depthView: bool)

  /** What each of the four view steps throws when it fails. */
  datatype ViewMessages = ViewMessages(backBuffer: string, renderTarget: string, depthTexture: string, depthView: string)

  const ChainFailure: string := "Create SwapChain was not successful"

  const ConstructorMessages: ViewMessages := ViewMessages(
    "Create SwapChain Buffer was not successful",
    "Create RenderTargetView was not successful",
    "Create Texture2D was not successful",
    "Create DepthStencilView was not successful")

  const LoadMessages: ViewMessages := ViewMessages(
    "Load SwapChain was not successful",
    "Load Render TargetView was not successful",
    "Load Texture2D was not successful",
    "Load DepthStencilView was not successful")

  predicate AllAccepted(a: ViewAnswers)
  {
    a.backBuffer && a.renderTarget && a.depthTexture && a.depthView
  }

  /** How the four steps end: the first refused step throws its message; later steps are never reached. */
  function ViewsOutcome(a: ViewAnswers, m: ViewMessages): (o: Outcome)
    ensures o == Done <==> AllAccepted(a)
    ensures !a.backBuffer ==> o == Thrown(m.backBuffer)
    ensures a.backBuffer && !a.renderTarget ==> o == Thrown(m.renderTarget)
    ensures a.backBuffer && a.renderTarget && !a.depthTexture ==> o == Thrown(m.depthTexture)
    ensures a.backBuffer && a.renderTarget && a.depthTexture && !a.depthView ==> o == Thrown(m.depthView)
  {
    if !a.backBuffer then Thrown(m.backBuffer)
    else if !a.renderTarget then Thrown(m.renderTarget)
    else if !a.depthTexture then Thrown(m.depthTexture)
    else if !a.depthView then Thrown(m.depthView)
    else Done
  }

  /**
   * The calls the four view steps make for swap chain `sc`, when the next
   * created object will be number `n`: every step up to the first refused one,
   * each texture released right after its view is asked for.
   */
  function ViewsLog(sc: nat, width: nat, height: nat, a: ViewAnswers, n: nat): seq<Event>
  {
    if !a.backBuffer then [Created(BackBuffer(sc), Null)]
    else
      [Created(BackBuffer(sc), Live(n)),
       Created(RenderTargetView(n), if a.renderTarget then Live(n + 1) else Null),
       Released(n)]
      + if !a.renderTarget then []
        else
          [Created(Texture2D(DepthDesc(width, height)), if a.depthTexture then Live(n + 2) else Null)]
          + if !a.depthTexture then []
            else [Created(DepthStencilView(n + 2), if a.depthView then Live(n + 3) else Null), Released(n + 2)]
  }

  /** The number the render-target view gets, when it is created. */
  function NewRenderTarget(a: ViewAnswers, n: nat): Handle
  {
    if a.backBuffer && a.renderTarget then Live(n + 1) else Null
  }

  /**
   * How many objects the four view steps obtain from the driver: every
   * accepted step up to the first refused one.
   */
  function ViewsCreated(a: ViewAnswers): (c: nat)
    ensures c <= 4
    ensures c == 4 <==> AllAccepted(a)
    ensures c == 0 <==> !a.backBuffer
  {
    if !a.backBuffer then 0
    else if !a.renderTarget then 1
    else if !a.depthTexture then 2
    else if !a.depthView then 3
    else 4
  }

  /** The number the depth-stencil view gets, when it is created. */
  function NewDepthView(a: ViewAnswers, n: nat): Handle
  {
    if AllAccepted(a) then Live(n + 3) else Null
  }

  /**
   * The textures the view steps obtain do not outlive them: afterwards exactly
   * the views that were created are alive in addition to what was alive before.
   */
  lemma ViewsLogLive(log: seq<Event>, sc: nat, width: nat, height: nat, a: ViewAnswers, n: nat)
    requires forall id | id in CreatedIds(log) :: id < n
    ensures LiveIds(log + ViewsLog(sc, width, height, a, n)) ==
            LiveIds(log)
            + (if NewRenderTarget(a, n).Live? then {n + 1} else {})
            + (if NewDepthView(a, n).Live? then {n + 3} else {})
  {
    LiveAreCreated(log);
    var live := LiveIds(log);
    assert n !in live && n + 2 !in live;
    LiveConcat(log, ViewsLog(sc, width, height, a, n));
    if a.backBuffer {
      var buffer := [Created(BackBuffer(sc), Live(n)), Created(RenderTargetView(n), NewRenderTarget(a, n)), Released(n)];
      var afterBuffer := live + (if a.renderTarget then {n + 1} else {});
      LiveThroughShort(live, buffer[0], buffer[1], buffer[2]);
      assert LiveThrough(live, buffer) == afterBuffer;
      if a.renderTarget {
        var texture := [Created(Texture2D(DepthDesc(width, height)), if a.depthTexture then Live(n + 2) else Null)];
        var view := if !a.depthTexture then []
                    else [Created(DepthStencilView(n + 2), if a.depthView then Live(n + 3) else Null), Released(n + 2)];
        assert ViewsLog(sc, width, height, a, n) == buffer + (texture + view);
        LiveThroughAppend(live, buffer, texture + view);
        LiveThroughAppend(afterBuffer, texture, view);
        LiveThroughShort(afterBuffer, texture[0], texture[0], texture[0]);
        if a.depthTexture {
          assert n + 2 !in afterBuffer;
          LiveThroughShort(afterBuffer + {n + 2}, view[0], view[1], view[1]);
        } else {
          LiveThroughShort(afterBuffer, texture[0], texture[0], texture[0]);
        }
      } else {
        assert ViewsLog(sc, width, height, a, n) == buffer + [];
        LiveThroughAppend(live, buffer, []);
      }
    }
  }

  /** Every depth texture the view steps ask for has exactly the requested size and the D24S8 format. */
  lemma DepthTextureSized(sc: nat, width: nat, height: nat, a: ViewAnswers, n: nat)
    ensures forall e | e in ViewsLog(sc, width, height, a, n) && e.Created? && e.resource.Texture2D? ::
      && e.resource.textureDesc.width == width
      && e.resource.textureDesc.height == height
      && e.resource.textureDesc.format == D24UnormS8Uint
      && e.resource.textureDesc.bind == DepthStencilBind
  {
  }

  /**
   * Releasing both views before the resize leaves neither of them alive when
   * the buffers are resized.
   */
  lemma ResizeWithoutViews(log: seq<Event>, sc: nat, rtv: nat, dsv: nat, width: nat, height: nat)
    ensures var calls := log + [Released(rtv), Released(dsv)];
      && rtv !in LiveIds(calls) && dsv !in LiveIds(calls)
      && LiveIds(calls + [Resized(sc, width, height)]) == LiveIds(log) - {rtv, dsv}
  {
    var calls := log + [Released(rtv), Released(dsv)];
    LiveAfter(log, Released(rtv));
    assert calls == (log + [Released(rtv)]) + [Released(dsv)];
    LiveAfter(log + [Released(rtv)], Released(dsv));
    LiveAfter(calls, Resized(sc, width, height));
  }

  class SwapChain {
    var swapChain: Handle
    var rtv: Handle
    var dsv: Handle

    constructor ()
      ensures swapChain == Null && rtv == Null && dsv == Null
    {
      swapChain, rtv, dsv := Null, Null, Null;
    }

    /**
     * The four view steps with the given messages: the back buffer, a
     * render-target view on it (the buffer is released right after), a depth
     * texture of the given size and a depth-stencil view on it (the texture
     * is released right after). The first refusal throws; a view that was
     * refused is null, a view that was not reached keeps its old value.
     */
    method CreateViews(driver: Driver, width: nat, height: nat, a: ViewAnswers, m: ViewMessages) returns (out: Outcome)
      requires driver.Valid() && swapChain.Live?
      modifies this, driver
      ensures driver.Valid()
      ensures out == ViewsOutcome(a, m)
      ensures swapChain == old(swapChain)
      ensures rtv == if a.backBuffer then NewRenderTarget(a, old(driver.nextId)) else old(rtv)
      ensures dsv == if a.backBuffer && a.renderTarget && a.depthTexture then NewDepthView(a, old(driver.nextId)) else old(dsv)
      ensures driver.log == old(driver.log) + ViewsLog(swapChain.id, width, height, a, old(driver.nextId))
      ensures driver.memory == old(driver.memory)
      ensures driver.nextId == old(driver.nextId) + ViewsCreated(a)
    {
      var n := driver.nextId;
      var buffer := driver.Create(BackBuffer(swapChain.id), a.backBuffer);
      if buffer.Null? {
        return Thrown(m.backBuffer);
      }
      rtv := driver.Create(RenderTargetView(buffer.id), a.renderTarget);
      driver.Release(buffer.id);
      if rtv.Null? {
        return Thrown(m.renderTarget);
      }
      buffer := driver.Create(Texture2D(DepthDesc(width, height)), a.depthTexture);
      if buffer.Null? {
        return Thrown(m.depthTexture);
      }
      dsv := driver.Create(DepthStencilView(buffer.id), a.depthView);
      driver.Release(buffer.id);
      if dsv.Null? {
        return Thrown(m.depthView);
      }
      out := Done;
    }

    /** `LoadViews`: the four view steps with their "Load ..." messages. */
    method LoadViews(driver: Driver, width: nat, height: nat, a: ViewAnswers) returns (out: Outcome)
      requires driver.Valid() && swapChain.Live?
      modifies this, driver
      ensures driver.Valid()
      ensures out == ViewsOutcome(a, LoadMessages)
      ensures swapChain == old(swapChain)
      ensures rtv == if a.backBuffer then NewRenderTarget(a, old(driver.nextId)) else old(rtv)
      ensures dsv == if a.backBuffer && a.renderTarget && a.depthTexture then NewDepthView(a, old(driver.nextId)) else old(dsv)
      ensures driver.log == old(driver.log) + ViewsLog(swapChain.id, width, height, a, old(driver.nextId))
      ensures driver.memory == old(driver.memory)
      ensures driver.nextId == old(driver.nextId) + ViewsCreated(a)
    {
      out := CreateViews(driver, width, height, a, LoadMessages);
    }

    /**
     * `Swap_Resize`: both views are released, the buffers are resized to the
     * new size (its result is not looked at), and the views are loaded again.
     * There is no shortcut for an unchanged size. When loading throws, the
     * released views are not replaced.
     */
    method Resize(driver: Driver, width: nat, height: nat, a: ViewAnswers) returns (out: Outcome)
      requires driver.Valid() && swapChain.Live? && rtv.Live? && dsv.Live?
      modifies this, driver
      ensures driver.Valid()
      ensures out == ViewsOutcome(a, LoadMessages)
      ensures swapChain == old(swapChain)
      ensures rtv == if a.backBuffer then NewRenderTarget(a, old(driver.nextId)) else old(rtv)
      ensures dsv == if a.backBuffer && a.renderTarget && a.depthTexture then NewDepthView(a, old(driver.nextId)) else old(dsv)
      ensures driver.log == old(driver.log) + [Released(old(rtv).id), Released(old(dsv).id), Resized(swapChain.id, width, height)]
                            + ViewsLog(swapChain.id, width, height, a, old(driver.nextId))
      ensures driver.memory == old(driver.memory)
      ensures driver.nextId == old(driver.nextId) + ViewsCreated(a)
    {
      driver.Release(rtv.id);
      driver.Release(dsv.id);
      driver.Record(Resized(swapChain.id, width, height));
      out := LoadViews(driver, width, height, a);
    }

    /** `present`: presents with `vsync` as the sync interval and reports success whatever happened. */
    method Present(driver: Driver, vsync: bool) returns (ok: bool)
      requires driver.Valid() && swapChain.Live?
      modifies driver
      ensures driver.Valid() && ok
      ensures driver.log == old(driver.log) + [Presented(swapChain.id, if vsync then 1 else 0)]
      ensures driver.memory == old(driver.memory) && driver.nextId == old(driver.nextId)
    {
      driver.Record(Presented(swapChain.id, if vsync then 1 else 0));
      ok := true;
    }

    /** `Swap_Fullscreen`: resizes first; only when that returns is the fullscreen state set. */
    method Fullscreen(driver: Driver, fullscreen: bool, width: nat, height: nat, a: ViewAnswers) returns (out: Outcome)
      requires driver.Valid() && swapChain.Live? && rtv.Live? && dsv.Live?
      modifies this, driver
      ensures driver.Valid()
      ensures out == ViewsOutcome(a, LoadMessages)
      ensures swapChain == old(swapChain)
      ensures driver.log == old(driver.log) + [Released(old(rtv).id), Released(old(dsv).id), Resized(swapChain.id, width, height)]
                            + ViewsLog(swapChain.id, width, height, a, old(driver.nextId))
                            + (if out == Done then [FullscreenSet(swapChain.id, fullscreen)] else [])
      ensures rtv == if a.backBuffer then NewRenderTarget(a, old(driver.nextId)) else old(rtv)
      ensures dsv == if a.backBuffer && a.renderTarget && a.depthTexture then NewDepthView(a, old(driver.nextId)) else old(dsv)
      ensures driver.memory == old(driver.memory)
      ensures driver.nextId == old(driver.nextId) + ViewsCreated(a)
    {
      out := Resize(driver, width, height, a);
      if out == Done {
        driver.Record(FullscreenSet(swapChain.id, fullscreen));
      }
    }

    /** The destructor: releases the swap chain and both views without checking them. */
    method Destroy(driver: Driver)
      requires driver.Valid() && swapChain.Live? && rtv.Live? && dsv.Live?
      modifies driver
      ensures driver.Valid()
      ensures driver.log == old(driver.log) + [Released(swapChain.id), Released(rtv.id), Released(dsv.id)]
      ensures driver.memory == old(driver.memory) && driver.nextId == old(driver.nextId)
    {
      driver.Release(swapChain.id);
      driver.Release(rtv.id);
      driver.Release(dsv.id);
    }
  }

  /**
   * `SwapChain::SwapChain(hwnd, width, height)`: asks the factory for the swap
   * chain described by ChainDesc, then runs the four view steps with the
   * constructor's messages. The first refusal throws.
   */
  method NewSwapChain(driver: Driver, window: nat, width: nat, height: nat, chainAccepted: bool, a: ViewAnswers)
    returns (r: Result<SwapChain>)
    requires driver.Valid()
    modifies driver
    ensures driver.Valid()
    ensures r.Ok? <==> chainAccepted && AllAccepted(a)
    ensures !chainAccepted ==> r == Throw(ChainFailure)
    ensures chainAccepted && r.Throw? ==> Thrown(r.message) == ViewsOutcome(a, ConstructorMessages)
    ensures driver.log == old(driver.log)
      + [Created(SwapChainObject(ChainDesc(window, width, height)), if chainAccepted then Live(old(driver.nextId)) else Null)]
      + (if chainAccepted then ViewsLog(old(driver.nextId), width, height, a, old(driver.nextId) + 1) else [])
    ensures r.Ok? ==>
      && fresh(r.value)
      && r.value.swapChain == Live(old(driver.nextId))
      && r.value.rtv == Live(old(driver.nextId) + 2)
      && r.value.dsv == Live(old(driver.nextId) + 4)
    ensures driver.memory == old(driver.memory)
    ensures driver.nextId == old(driver.nextId) + if chainAccepted then 1 + ViewsCreated(a) else 0
  {
    var s := new SwapChain();
    s.swapChain := driver.Create(SwapChainObject(ChainDesc(window, width, height)), chainAccepted);
    if s.swapChain.Null? {
      return Throw(ChainFailure);
    }
    var out := s.CreateViews(driver, width, height, a, ConstructorMessages);
    if out.Thrown? {
      return Throw(out.message);
    }
    r := Ok(s);
  }
}
