/**
 * The Mac canvas of Tsumiki.View.Mac/TsumikiCanvas.cs over a small stand-in for its
 * Metal renderer wrapper: creation with its two null cases, the 3:2 resize, rendering
 * on request, and idempotent disposal. The native renderer is not modelled; the
 * handle its creation returns is a parameter, and the wrapper records the calls it makes.
 */
module MacCanvas {
  import opened Common
  import opened CanvasGeometry

  /** A call the wrapper makes on the native renderer. */
  datatype NativeCall = Cleared | Rendered(visual: Visual) | Presented | Resized(width: int, height: int) | Destroyed

  /**
   * The parts of Tsumiki.View.Mac/Renderer.cs the canvas relies on: creation clears
   * and presents once, and every drawing call of a disposed renderer throws.
   */
  class MacRenderer {
    const handle: int
    var disposed: bool
    var calls: seq<NativeCall>

    /** Construction succeeds only over a non-null native handle. */
    constructor (handle: int)
      requires handle != 0
      ensures this.handle == handle && !disposed && calls == [Cleared, Presented]
    {
      this.handle := handle;
      disposed := false;
      calls := [Cleared, Presented];
    }

    /** Resize: passed on to the native renderer; false when the renderer is disposed (it throws). */
    method Resize(width: int, height: int) returns (ok: bool)
      modifies this
      ensures ok == !old(disposed) && disposed == old(disposed)
      ensures calls == if ok then old(calls) + [Resized(width, height)] else old(calls)
    {
      if disposed {
        return false;
      }
      calls := calls + [Resized(width, height)];
      return true;
    }

    /** A visual drawing itself, reduced to the one fact that it was drawn. */
    method Render(visual: Visual) returns (ok: bool)
      modifies this
      ensures ok == !old(disposed) && disposed == old(disposed)
      ensures calls == if ok then old(calls) + [Rendered(visual)] else old(calls)
    {
      if disposed {
        return false;
      }
      calls := calls + [Rendered(visual)];
      return true;
    }

    method Present() returns (ok: bool)
      modifies this
      ensures ok == !old(disposed) && disposed == old(disposed)
      ensures calls == if ok then old(calls) + [Presented] else old(calls)
    {
      if disposed {
        return false;
      }
      calls := calls + [Presented];
      return true;
    }

    /** Dispose: the native renderer destroyed on the first call only. */
    method Dispose()
      modifies this
      ensures disposed
      ensures calls == if old(disposed) then old(calls) else old(calls) + [Destroyed]
    {
      if disposed {
        return;
      }
      calls := calls + [Destroyed];
      disposed := true;
    }
  }

  class TsumikiCanvas {
    const nsView: int
    const renderer: MacRenderer
    const control: Visual
    var width: int
    var height: int
    /** Whether OnRenderRequested is subscribed to the control's RenderRequested. */
    var subscribed: bool
    var isDisposed: bool

    /** Valid: the canvas holds its renderer alive until it is itself disposed. */
    ghost predicate Valid()
      reads this, renderer
    {
      renderer.disposed == isDisposed
    }

    constructor (nsView: int, width: int, height: int, control: Visual, rendererHandle: int)
      requires rendererHandle != 0
      ensures Valid() && fresh(renderer) && renderer.calls == [Cleared, Presented]
      ensures this.nsView == nsView && this.width == width && this.height == height && this.control == control
      ensures subscribed && !isDisposed
    {
      this.nsView := nsView;
      this.width := width;
      this.height := height;
      this.control := control;
      renderer := new MacRenderer(rendererHandle);
      subscribed := true;
      isDisposed := false;
    }

    /**
     * Create: no canvas for a null parent view, nor when the renderer's construction
     * throws (the native renderer handle is null); otherwise a canvas at the requested size.
     */
    static method Create(parentHandle: int, rect: Rect, control: Visual, rendererHandle: int) returns (canvas: TsumikiCanvas?)
      ensures canvas == null <==> parentHandle == 0 || rendererHandle == 0
      ensures canvas != null ==>
                fresh(canvas) && fresh(canvas.renderer) && canvas.Valid() && canvas.nsView == parentHandle &&
                canvas.width == rect.Width() && canvas.height == rect.Height() && canvas.subscribed && !canvas.isDisposed
    {
      if parentHandle == 0 {
        return null;
      }
      if rendererHandle == 0 {
        return null;
      }
      canvas := new TsumikiCanvas(parentHandle, rect.Width(), rect.Height(), control, rendererHandle);
    }

    /** OnRenderRequested: the visual drawn, then one present; a disposed renderer throws at the first call. */
    method OnRenderRequested(visual: Visual) returns (ok: bool)
      requires Valid()
      modifies renderer
      ensures Valid() && ok == !isDisposed
      ensures renderer.calls == if ok then old(renderer.calls) + [Rendered(visual), Presented] else old(renderer.calls)
    {
      ok := renderer.Render(visual);
      if !ok {
        return;
      }
      ok := renderer.Present();
    }

    /**
     * Resize: width and height become the 3:2 normalisation of the request and the
     * renderer is resized to it. The fields are set before the renderer is called, so a
     * disposed canvas takes the new size and then throws.
     */
    method Resize(rect: Rect) returns (ok: bool)
      requires Valid()
      modifies this, renderer
      ensures Valid() && ok == !isDisposed
      ensures var normalized := NormalizedRect(rect);
              width == normalized.Width() && height == normalized.Height() &&
              renderer.calls == if ok then old(renderer.calls) + [Resized(normalized.Width(), normalized.Height())] else old(renderer.calls)
      ensures subscribed == old(subscribed) && isDisposed == old(isDisposed)
    {
      var normalizedByWidth := Rect(rect.left, rect.top,
        rect.left + TruncDiv(rect.Width(), 3) * 3, rect.top + TruncDiv(rect.Width(), 3) * 2);
      var normalizedByHeight := Rect(rect.left, rect.top,
        rect.left + TruncDiv(rect.Height(), 2) * 3, rect.top + TruncDiv(rect.Height(), 2) * 2);
      var normalized := if normalizedByWidth.Width() < normalizedByHeight.Width() then normalizedByWidth else normalizedByHeight;
      width := normalized.Width();
      height := normalized.Height();
      ok := renderer.Resize(normalized.Width(), normalized.Height());
    }

    /** Dispose (also the finaliser): the first call unsubscribes and destroys the renderer; later calls change nothing. */
    method Dispose()
      requires Valid()
      modifies this, renderer
      ensures Valid() && isDisposed
      ensures old(isDisposed) ==> unchanged(this) && unchanged(renderer)
      ensures !old(isDisposed) ==> !subscribed && renderer.calls == old(renderer.calls) + [Destroyed]
      ensures width == old(width) && height == old(height)
    {
      if isDisposed {
        return;
      }
      subscribed := false;
      renderer.Dispose();
      isDisposed := true;
    }
  }

  /** However often a canvas is disposed, its renderer is destroyed once. */
  method DisposeTwice(canvas: TsumikiCanvas)
    requires canvas.Valid() && !canvas.isDisposed
    modifies canvas, canvas.renderer
    ensures canvas.isDisposed && !canvas.subscribed
    ensures canvas.renderer.calls == old(canvas.renderer.calls) + [Destroyed]
  {
    canvas.Dispose();
    canvas.Dispose();
  }
}
