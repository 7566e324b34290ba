/**
  The preview renderer: the Direct3D 11 device, the Direct2D factory, device
  and device context, the DXGI swap chain of the preview window and the
  bitmap the context draws into. Every COM object is an opaque handle held in
  an `Option`; every call that can fail is an outcome supplied by the caller.
*/
module Renderer {
  import opened Wrappers
  import opened Text
  import opened Fonts
  import opened CollectionCache

  type Handle = nat

  /** The renderer's handles, as one value. `contextTarget` is what the device
      context was last told to draw into (`SetTarget`). */
  datatype Gpu = Gpu(
    d3dDevice: Option<Handle>,
    d3dContext: Option<Handle>,
    d2dFactory: Option<Handle>,
    d2dDevice: Option<Handle>,
    d2dContext: Option<Handle>,
    swapChain: Option<Handle>,
    target: Option<Handle>,
    contextTarget: Option<Handle>)

  const NoGpu := Gpu(None, None, None, None, None, None, None, None)

  /** All five device handles exist, so device set-up is skipped. */
  predicate DeviceReady(g: Gpu)
  {
    g.d3dDevice.Some? && g.d3dContext.Some? && g.d2dFactory.Some? && g.d2dDevice.Some? && g.d2dContext.Some?
  }

  /** What holds between the handles at every call boundary: the Direct3D
      device and its context come and go together; a Direct2D context exists
      only with the full device chain; the context draws into exactly the
      current target bitmap; a target exists only with a context and a swap chain. */
  predicate Consistent(g: Gpu)
  {
    && (g.d3dDevice.Some? <==> g.d3dContext.Some?)
    && (g.d2dContext.Some? ==> DeviceReady(g))
    && g.contextTarget == g.target
    && (g.target.Some? ==> g.d2dContext.Some? && g.swapChain.Some?)
  }

  /** The result of a set-up step: the handles afterwards and the returned flag. */
  datatype Step = Step(gpu: Gpu, ok: bool)

  /** `D3D11CreateDevice` yields a device and its immediate context together. */
  datatype D3DPair = D3DPair(device: Handle, immediateContext: Handle)

  /** Outcomes of the device set-up calls, in order; `None` or `false` is a failure. */
  datatype DeviceCalls = DeviceCalls(
    d3d: Option<D3DPair>,          // D3D11CreateDevice
    dxgiDevice: bool,              // QueryInterface for IDXGIDevice
    d2dFactory: Option<Handle>,    // D2D1CreateFactory
    d2dDevice: Option<Handle>,     // ID2D1Factory1::CreateDevice
    d2dContext: Option<Handle>)    // ID2D1Device::CreateDeviceContext

  /** `EnsurePreviewDevice`. The Direct3D pair is stored as soon as it is
      created; the three Direct2D calls write straight into their fields
      (which are emptied first), so a failure leaves that field empty and the
      handles stored before it in place. */
  function EnsureDevice(g: Gpu, c: DeviceCalls): (r: Step)
    ensures DeviceReady(g) ==> r == Step(g, true)
    ensures Consistent(g) ==> Consistent(r.gpu) && (r.ok <==> DeviceReady(r.gpu))
    ensures !DeviceReady(g) && c.d3d.Some? ==>
              r.gpu.d3dDevice == Some(c.d3d.value.device) && r.gpu.d3dContext == Some(c.d3d.value.immediateContext)
    ensures !DeviceReady(g) && c.d3d.None? ==> r == Step(g, false)
    ensures r.gpu.swapChain == g.swapChain && r.gpu.target == g.target && r.gpu.contextTarget == g.contextTarget
  {
    if DeviceReady(g) then Step(g, true)
    else if c.d3d.None? then Step(g, false)
    else
      var g1 := g.(d3dDevice := Some(c.d3d.value.device), d3dContext := Some(c.d3d.value.immediateContext));
      if !c.dxgiDevice then Step(g1, false)
      else
        var g2 := g1.(d2dFactory := c.d2dFactory);
        if c.d2dFactory.None? then Step(g2, false)
        else
          var g3 := g2.(d2dDevice := c.d2dDevice);
          if c.d2dDevice.None? then Step(g3, false)
          else
            var g4 := g3.(d2dContext := c.d2dContext);
            Step(g4, c.d2dContext.Some?)
  }

  /** `ReleasePreviewTarget`: detaches the target from the context (when there
      is a context) and drops the target. */
  function ReleaseTarget(g: Gpu): (r: Gpu)
    ensures r.target.None?
    ensures Consistent(g) ==> Consistent(r) && r.contextTarget.None?
    ensures r.(target := g.target, contextTarget := g.contextTarget) == g
  {
    g.(contextTarget := if g.d2dContext.Some? then None else g.contextTarget, target := None)
  }

  /** Outcomes of the swap-chain calls, in order. */
  datatype SwapCalls = SwapCalls(
    dxgiDevice: bool,            // QueryInterface for IDXGIDevice
    adapter: bool,               // IDXGIDevice::GetAdapter
    factory: bool,               // IDXGIAdapter::GetParent for IDXGIFactory2
    created: Option<Handle>,     // CreateSwapChainForHwnd, used when there is no swap chain
    resized: bool,               // IDXGISwapChain1::ResizeBuffers, used otherwise
    buffer: bool,                // IDXGISwapChain1::GetBuffer
    bitmap: Option<Handle>)      // CreateBitmapFromDxgiSurface

  /** The last two steps of `CreateOrResizeSwapChain`: fetch the back buffer,
      wrap it in a bitmap and make that the context's target. */
  function AttachTarget(g: Gpu, c: SwapCalls): (r: Step)
    ensures r.ok <==> c.buffer && c.bitmap.Some?
    ensures r.ok ==> r.gpu == g.(target := c.bitmap, contextTarget := c.bitmap)
    ensures !r.ok ==> r.gpu == g
  {
    if !c.buffer || c.bitmap.None? then Step(g, false)
    else Step(g.(target := c.bitmap, contextTarget := c.bitmap), true)
  }

  predicate ValidArguments(hwndPresent: bool, width: int, height: int)
  {
    hwndPresent && width > 0 && height > 0
  }

  /** `CreateOrResizeSwapChain`. */
  function SwapChainStep(g: Gpu, hwndPresent: bool, width: int, height: int, dc: DeviceCalls, sc: SwapCalls): (r: Step)
  {
    if !ValidArguments(hwndPresent, width, height) then Step(g, false)
    else
      var e := EnsureDevice(g, dc);
      if !e.ok then Step(e.gpu, false)
      else
        var g1 := ReleaseTarget(e.gpu);
        if !sc.dxgiDevice || !sc.adapter || !sc.factory then Step(g1, false)
        else if g1.swapChain.None? then
          if sc.created.None? then Step(g1, false)
          else AttachTarget(g1.(swapChain := sc.created), sc)
        else if !sc.resized then Step(g1.(swapChain := None), false)
        else AttachTarget(g1, sc)
  }

  /** The swap-chain step keeps the handles consistent, and a success leaves a
      device context drawing into a fresh target on a swap chain. */
  lemma SwapChainStepConsistent(g: Gpu, hwndPresent: bool, width: int, height: int, dc: DeviceCalls, sc: SwapCalls)
    requires Consistent(g)
    ensures var r := SwapChainStep(g, hwndPresent, width, height, dc, sc);
            && Consistent(r.gpu)
            && (r.ok ==> DeviceReady(r.gpu) && r.gpu.swapChain.Some? && r.gpu.target == sc.bitmap &&
                         r.gpu.target.Some? && r.gpu.contextTarget == r.gpu.target)
  {
    if ValidArguments(hwndPresent, width, height) {
      var e := EnsureDevice(g, dc);
      if e.ok {
        var g1 := ReleaseTarget(e.gpu);
        assert Consistent(g1) && DeviceReady(g1);
      }
    }
  }

  /** Bad arguments change nothing; once arguments are good and the device is
      ready, the old target is always released before anything else can fail,
      so a failure leaves no target. */
  lemma SwapChainTargetOnlyOnSuccess(g: Gpu, hwndPresent: bool, width: int, height: int, dc: DeviceCalls, sc: SwapCalls)
    requires Consistent(g)
    ensures var r := SwapChainStep(g, hwndPresent, width, height, dc, sc);
            && (!ValidArguments(hwndPresent, width, height) ==> r == Step(g, false))
            && (ValidArguments(hwndPresent, width, height) && EnsureDevice(g, dc).ok ==>
                  (r.gpu.target.Some? <==> r.ok))
            && (!r.ok ==> r.gpu.target == g.target || r.gpu.target.None?)
  {
    if ValidArguments(hwndPresent, width, height) {
      var e := EnsureDevice(g, dc);
      if e.ok {
        assert ReleaseTarget(e.gpu).target.None?;
      }
    }
  }

  /** An existing swap chain that fails to resize is dropped, so the next call
      creates a new one; a swap chain is created only when there was none. */
  lemma SwapChainResize(g: Gpu, hwndPresent: bool, width: int, height: int, dc: DeviceCalls, sc: SwapCalls)
    requires Consistent(g) && ValidArguments(hwndPresent, width, height)
    requires EnsureDevice(g, dc).ok && sc.dxgiDevice && sc.adapter && sc.factory
    ensures var r := SwapChainStep(g, hwndPresent, width, height, dc, sc);
            && (g.swapChain.Some? && !sc.resized ==> r == Step(ReleaseTarget(EnsureDevice(g, dc).gpu).(swapChain := None), false))
            && (g.swapChain.Some? && sc.resized ==> r.gpu.swapChain == g.swapChain)
            && (g.swapChain.None? ==> r.gpu.swapChain == sc.created)
  {
  }

  const DefaultSample := "あいうABC123"

  /** The text drawn: the sample text, or the built-in sample when it is empty. */
  function PreviewText(sample: string): (t: string)
    ensures t != []
    ensures sample != [] ==> t == sample
  {
    if sample == [] then DefaultSample else sample
  }

  const FallbackFamily := "Segoe UI"

  /** A DirectWrite text format: a family name looked up in a collection
      (`None` is the system collection). */
  datatype TextFormat = TextFormat(family: string, collection: Option<CollectionHandle>)

  datatype DrawnText = DrawnText(text: string, format: TextFormat)

  /** Outcomes of the drawing calls made for a selected font. */
  datatype DrawCalls = DrawCalls(
    primaryFormat: bool,     // CreateTextFormat with the entry's family
    fallbackFormat: bool,    // CreateTextFormat with the fallback family
    brush: bool)             // CreateSolidColorBrush

  /** The text format for an entry: its family in its collection, else the
      fallback family in the system collection, else none. */
  function ChooseFormat(item: FontItem, collection: Option<CollectionHandle>, calls: DrawCalls): (f: Option<TextFormat>)
    ensures calls.primaryFormat ==> f == Some(TextFormat(ExtractFamilyName(item), collection))
    ensures !calls.primaryFormat ==> f == if calls.fallbackFormat then Some(TextFormat(FallbackFamily, None)) else None
  {
    if calls.primaryFormat then Some(TextFormat(ExtractFamilyName(item), collection))
    else if calls.fallbackFormat then Some(TextFormat(FallbackFamily, None))
    else None
  }

  /** The collection a folder entry is drawn from: the cached or newly built
      collection of its own file, or the system collection when that fails. */
  function CollectionFor(item: FontItem, cache: map<string, CollectionHandle>, build: BuildCalls): (r: Lookup)
  {
    if item.isSystemFont then Lookup(Failure(E_FAIL), cache)
    else GetOrCreate(cache, true, item.filePath, build)
  }

  /** What is drawn for the current selection, and the collection cache afterwards. */
  datatype Drawing = Drawing(drawn: Option<DrawnText>, cache: map<string, CollectionHandle>)

  function DrawSelection(fonts: seq<FontItem>, selected: int, sample: string,
                         cache: map<string, CollectionHandle>, build: BuildCalls, calls: DrawCalls): Drawing
  {
    if !(0 <= selected < |fonts|) then Drawing(None, cache)
    else
      var item := fonts[selected];
      var lookup := CollectionFor(item, cache, build);
      var collection := if lookup.result.Success? then Some(lookup.result.value) else None;
      var format := ChooseFormat(item, collection, calls);
      if format.Some? && calls.brush then Drawing(Some(DrawnText(PreviewText(sample), format.value)), lookup.cache)
      else Drawing(None, lookup.cache)
  }

  /** Text is drawn only for a selection inside the catalog, always with a
      non-empty text; a system entry is drawn from the system collection and
      leaves the cache alone; a folder entry whose primary format succeeds is
      drawn in its family from the collection of its own file when that could
      be had, and otherwise from the system collection; a failed primary
      format falls back to the fallback family in the system collection. */
  lemma DrawSelectionSpec(fonts: seq<FontItem>, selected: int, sample: string,
                          cache: map<string, CollectionHandle>, build: BuildCalls, calls: DrawCalls)
    ensures var d := DrawSelection(fonts, selected, sample, cache, build, calls);
            && (d.drawn.Some? ==> 0 <= selected < |fonts| && d.drawn.value.text == PreviewText(sample) && d.drawn.value.text != [])
            && (0 <= selected < |fonts| && (calls.primaryFormat || calls.fallbackFormat) && calls.brush ==> d.drawn.Some?)
            && (0 <= selected < |fonts| && fonts[selected].isSystemFont ==>
                  d.cache == cache && (d.drawn.Some? ==> d.drawn.value.format.collection.None?))
            && (0 <= selected < |fonts| && !fonts[selected].isSystemFont && d.drawn.Some? && calls.primaryFormat ==>
                  var l := GetOrCreate(cache, true, fonts[selected].filePath, build);
                  d.drawn.value.format == TextFormat(ExtractFamilyName(fonts[selected]),
                                                     if l.result.Success? then Some(l.result.value) else None))
            && (d.drawn.Some? && !calls.primaryFormat ==> d.drawn.value.format == TextFormat(FallbackFamily, None))
  {
  }

  /** What one call of `RenderPreview` amounts to. */
  datatype RenderOutcome =
    | Skipped          // a render was already in progress
    | NoWindow         // there is no preview window
    | EmptyArea        // the preview's client area is empty
    | SetupFailed      // the swap chain or its target could not be set up
    | Presented(drawn: Option<DrawnText>)   // a frame was cleared, possibly drawn into, and presented

  /** The renderer's global state. */
  class PreviewRenderer {
    var d3dDevice: Option<Handle>
    var d3dContext: Option<Handle>
    var d2dFactory: Option<Handle>
    var d2dDevice: Option<Handle>
    var d2dContext: Option<Handle>
    var swapChain: Option<Handle>
    var target: Option<Handle>
    var contextTarget: Option<Handle>
    var sampleText: string
    var inRenderPreview: bool

    function State(): Gpu
      reads this
    {
      Gpu(d3dDevice, d3dContext, d2dFactory, d2dDevice, d2dContext, swapChain, target, contextTarget)
    }

    predicate Valid()
      reads this
    {
      Consistent(State())
    }

    constructor ()
      ensures State() == NoGpu && Valid()
      ensures sampleText == DefaultSample && !inRenderPreview
    {
      d3dDevice, d3dContext, d2dFactory, d2dDevice, d2dContext := None, None, None, None, None;
      swapChain, target, contextTarget := None, None, None;
      sampleText := DefaultSample;
      inRenderPreview := false;
    }

    /** `EnsurePreviewDevice`: nothing to do when all five handles exist;
        otherwise creates them in order and stops at the first failure. */
    method EnsurePreviewDevice(c: DeviceCalls) returns (ok: bool)
      requires Valid()
      modifies this`d3dDevice, this`d3dContext, this`d2dFactory, this`d2dDevice, this`d2dContext
      ensures Valid()
      ensures Step(State(), ok) == EnsureDevice(old(State()), c)
    {
      if d3dDevice.Some? && d3dContext.Some? && d2dFactory.Some? && d2dDevice.Some? && d2dContext.Some? {
        return true;
      }
      if c.d3d.None? {
        return false;
      }
      d3dDevice := Some(c.d3d.value.device);
      d3dContext := Some(c.d3d.value.immediateContext);
      if !c.dxgiDevice {
        return false;
      }
      d2dFactory := c.d2dFactory;
      if d2dFactory.None? {
        return false;
      }
      d2dDevice := c.d2dDevice;
      if d2dDevice.None? {
        return false;
      }
      d2dContext := c.d2dContext;
      if d2dContext.None? {
        return false;
      }
      return true;
    }

    /** `ReleasePreviewTarget`. */
    method ReleasePreviewTarget()
      requires Valid()
      modifies this`target, this`contextTarget
      ensures Valid()
      ensures State() == ReleaseTarget(old(State()))
    {
      if d2dContext.Some? {
        contextTarget := None;
      }
      target := None;
    }

    /** `CreateOrResizeSwapChain`: checks the arguments, makes sure the device
        exists, releases the target, creates or resizes the swap chain and
        attaches a bitmap over its back buffer as the new target. */
    method CreateOrResizeSwapChain(hwndPresent: bool, width: int, height: int, dc: DeviceCalls, sc: SwapCalls)
      returns (ok: bool)
      requires Valid()
      modifies this`d3dDevice, this`d3dContext, this`d2dFactory, this`d2dDevice, this`d2dContext,
               this`swapChain, this`target, this`contextTarget
      ensures Valid()
      ensures Step(State(), ok) == SwapChainStep(old(State()), hwndPresent, width, height, dc, sc)
    {
      SwapChainStepConsistent(State(), hwndPresent, width, height, dc, sc);
      if !hwndPresent || width <= 0 || height <= 0 {
        return false;
      }
      ok := EnsurePreviewDevice(dc);
      if !ok {
        return false;
      }
      ReleasePreviewTarget();
      if !sc.dxgiDevice || !sc.adapter || !sc.factory {
        return false;
      }
      if swapChain.None? {
        swapChain := sc.created;
        if swapChain.None? {
          return false;
        }
      } else if !sc.resized {
        swapChain := None;
        return false;
      }
      if !sc.buffer {
        return false;
      }
      target := sc.bitmap;
      if target.None? {
        return false;
      }
      contextTarget := target;
      return true;
    }

    /** `SyncSampleTextFromEdit`: copies the sample edit box (when it exists)
        through a 512-character buffer. */
    method SyncSampleTextFromEdit(edit: Option<string>)
      modifies this`sampleText
      ensures sampleText == if edit.Some? then WindowText(edit.value) else old(sampleText)
    {
      if edit.Some? {
        sampleText := WindowText(edit.value);
      }
    }

    /** The drawing part of `RenderPreview`: resolves the selected entry's
        family and collection, makes a text format (falling back to the
        fallback family), and draws the sample with a solid brush. */
    method DrawSelectedFont(fonts: seq<FontItem>, selected: int, sample: string,
                            cache: FontCollectionCache, build: BuildCalls, calls: DrawCalls)
      returns (drawn: Option<DrawnText>)
      requires sample != []
      modifies cache`collections
      ensures Drawing(drawn, cache.collections) == DrawSelection(fonts, selected, sample, old(cache.collections), build, calls)
    {
      drawn := None;
      if 0 <= selected < |fonts| {
        var item := fonts[selected];
        var family := ExtractFamilyName(item);
        var collection: Option<CollectionHandle> := None;
        if !item.isSystemFont {
          var found := cache.GetOrCreateExternalFontCollection(true, item.filePath, build);
          if found.Success? {
            collection := Some(found.value);
          }
        }
        var format: Option<TextFormat> := None;
        if calls.primaryFormat {
          format := Some(TextFormat(family, collection));
        } else if calls.fallbackFormat {
          format := Some(TextFormat(FallbackFamily, None));
        }
        if format.Some? && calls.brush {
          drawn := Some(DrawnText(sample, format.value));
        }
      }
    }

    /** `RenderPreview`: guarded against re-entry by `inRenderPreview`, which is
        restored on every way out; needs a preview window, refreshes the sample
        text, needs a non-empty client area and a working swap chain, then
        clears the frame, draws the sample in the selected font when the
        selection is inside the catalog, and presents. */
    method RenderPreview(hwndPresent: bool, sampleEdit: Option<string>, width: int, height: int,
                         dc: DeviceCalls, sc: SwapCalls, fonts: seq<FontItem>, selected: int,
                         cache: FontCollectionCache, build: BuildCalls, calls: DrawCalls)
      returns (outcome: RenderOutcome)
      requires Valid()
      modifies this, cache`collections
      ensures Valid()
      ensures inRenderPreview == old(inRenderPreview)
      ensures old(inRenderPreview) ==> outcome == Skipped && unchanged(this) && unchanged(cache)
      ensures !old(inRenderPreview) && !hwndPresent ==>
                outcome == NoWindow && unchanged(this) && unchanged(cache)
      ensures !old(inRenderPreview) && hwndPresent ==>
                sampleText == if sampleEdit.Some? then WindowText(sampleEdit.value) else old(sampleText)
      ensures !old(inRenderPreview) && hwndPresent && !(width > 0 && height > 0) ==>
                outcome == EmptyArea && State() == old(State()) && unchanged(cache)
      ensures !old(inRenderPreview) && hwndPresent && width > 0 && height > 0 ==>
                var s := SwapChainStep(old(State()), true, width, height, dc, sc);
                && State() == s.gpu
                && (!s.ok ==> outcome == SetupFailed && unchanged(cache))
                && (s.ok ==> var d := DrawSelection(fonts, selected, sampleText, old(cache.collections), build, calls);
                             outcome == Presented(d.drawn) && cache.collections == d.cache)
    {
      if inRenderPreview {
        return Skipped;
      }
      inRenderPreview := true;
      if !hwndPresent {
        outcome := NoWindow;
      } else {
        SyncSampleTextFromEdit(sampleEdit);
        if width <= 0 || height <= 0 {
          outcome := EmptyArea;
        } else {
          var ok := CreateOrResizeSwapChain(true, width, height, dc, sc);
          SwapChainStepConsistent(old(State()), true, width, height, dc, sc);
          if !ok || d2dContext.None? || target.None? {
            outcome := SetupFailed;
          } else {
            var sample := sampleText;
            if sample == [] {
              sample := DefaultSample;
            }
            var drawn := DrawSelectedFont(fonts, selected, sample, cache, build, calls);
            outcome := Presented(drawn);
          }
        }
      }
      inRenderPreview := false;
    }
  }
}
