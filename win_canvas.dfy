/**
 * The Windows canvas of Tsumiki.View.Win/TsumikiCanvas.cs: creation over a child
 * window, the 3:2 resize, and disposal. Window creation, resizing and destruction and
 * the render loop's thread are not modelled; the handle a window creation returns is a
 * parameter, and the canvas records what it asked of the window and the loop.
 */
module WinCanvas {
  import opened Common
  import opened CanvasGeometry
  import opened WinRenderer
  import opened WinInterop

  class TsumikiCanvas {
    const hwnd: int
    const renderer: Renderer
    const control: Visual
    const interop: Interop<TsumikiCanvas>
    var width: int
    var height: int
    /** The rectangle last passed to the window. */
    var windowRect: Rect
    /** Whether the renderer's RegisterVisual is subscribed to the control's RenderRequested. */
    var subscribed: bool
    var renderLoopRunning: bool
    var rendererDisposed: bool
    var windowDestroyed: bool
    var isDisposed: bool

    /** The constructor: a renderer at the window's size rooted at the control, the render loop started, the control subscribed, the canvas registered. */
    constructor (interop: Interop<TsumikiCanvas>, hwnd: int, rect: Rect, page: Visual)
      modifies interop
      ensures this.hwnd == hwnd && this.interop == interop && control == page && fresh(renderer)
      ensures renderer.Valid() && fresh(renderer.vertices) && renderer.rootVisual == page && renderer.visuals == [page]
      ensures renderer.graphicsSize == (rect.Width(), rect.Height()) && renderer.changedSize == None
      ensures width == rect.Width() && height == rect.Height() && windowRect == rect
      ensures subscribed && renderLoopRunning && !rendererDisposed && !windowDestroyed && !isDisposed
      ensures interop.activeCanvases == old(interop.activeCanvases)[hwnd := this]
      ensures interop.classRegistered == old(interop.classRegistered) && interop.registrations == old(interop.registrations)
    {
      this.hwnd := hwnd;
      renderer := new Renderer(rect.Width(), rect.Height(), page);
      renderLoopRunning := true;
      width := rect.Width();
      height := rect.Height();
      windowRect := rect;
      control := page;
      subscribed := true;
      rendererDisposed := false;
      windowDestroyed := false;
      isDisposed := false;
      this.interop := interop;
      new;
      interop.AddCanvas(hwnd, this);
    }

    /**
     * Create: the window class registered, then a child window; no canvas when window
     * creation returns the null handle, otherwise a registered canvas over that window.
     */
    static method Create(interop: Interop<TsumikiCanvas>, moduleHandle: int, createdHwnd: int, rect: Rect, control: Visual)
      returns (canvas: TsumikiCanvas?)
      requires interop.Valid()
      modifies interop
      ensures interop.Valid() && interop.classRegistered == (old(interop.classRegistered) || moduleHandle != 0)
      ensures createdHwnd == 0 ==> canvas == null && interop.activeCanvases == old(interop.activeCanvases)
      ensures createdHwnd != 0 ==>
                canvas != null && fresh(canvas) && canvas.hwnd == createdHwnd && canvas.interop == interop &&
                canvas.width == rect.Width() && canvas.height == rect.Height() && !canvas.isDisposed &&
                interop.activeCanvases == old(interop.activeCanvases)[createdHwnd := canvas]
    {
      interop.RegisterClass(moduleHandle);
      var hwnd := createdHwnd;
      if hwnd == 0 {
        canvas := null;
      } else {
        canvas := new TsumikiCanvas(interop, hwnd, rect, control);
      }
    }

    /** Resize: the size normalised to 3:2, stored, and passed to both the window and the renderer. */
    method Resize(rect: Rect)
      modifies this, renderer
      ensures var normalized := NormalizedRect(rect);
              width == normalized.Width() && height == normalized.Height() && windowRect == normalized &&
              renderer.changedSize == Some((normalized.Width(), normalized.Height()))
      ensures renderer.visuals == old(renderer.visuals) && renderer.prevVisuals == old(renderer.prevVisuals)
      ensures renderer.events == old(renderer.events) && renderer.graphicsSize == old(renderer.graphicsSize)
      ensures renderer.renderedVisuals == old(renderer.renderedVisuals)
      ensures subscribed == old(subscribed) && isDisposed == old(isDisposed) && renderLoopRunning == old(renderLoopRunning)
      ensures rendererDisposed == old(rendererDisposed) && windowDestroyed == old(windowDestroyed)
    {
      var normalizedByWidth := Rect(rect.left, rect.top,
        rect.left + TruncDiv(rect.Width(), 3) * 3, rect.top + TruncDiv(rect.Width(), 3) * 2);
      var normalizedByHeight := Rect(rect.left, rect.top,
        rect.left + TruncDiv(rect.Height(), 2) * 3, rect.top + TruncDiv(rect.Height(), 2) * 2);
      var normalized := if normalizedByWidth.Width() < normalizedByHeight.Width() then normalizedByWidth else normalizedByHeight;
      width := normalized.Width();
      height := normalized.Height();
      windowRect := normalized;
      renderer.Resize(normalized.Width(), normalized.Height());
    }

    /**
     * Dispose(disposing): on the first call the control is unsubscribed (only when
     * disposing), the render loop stopped, the renderer disposed, the canvas unregistered
     * and the window destroyed; a later call changes nothing. The result is always true.
     */
    method DisposeCore(disposing: bool) returns (disposed: bool)
      modifies this, interop
      ensures disposed && isDisposed
      ensures old(isDisposed) ==> unchanged(this) && unchanged(interop)
      ensures !old(isDisposed) ==>
                subscribed == (old(subscribed) && !disposing) && !renderLoopRunning && rendererDisposed && windowDestroyed &&
                interop.activeCanvases == old(interop.activeCanvases) - {hwnd} &&
                interop.classRegistered == old(interop.classRegistered) && interop.registrations == old(interop.registrations) &&
                width == old(width) && height == old(height) && windowRect == old(windowRect)
    {
      if !isDisposed {
        if disposing {
          subscribed := false;
        }
        renderLoopRunning := false;
        rendererDisposed := true;
        interop.RemoveCanvas(hwnd);
        windowDestroyed := true;
        isDisposed := true;
      }
      disposed := isDisposed;
    }

    /** Dispose: the disposing variant; CanvasFinalize is the finaliser's non-disposing one. */
    method Dispose()
      modifies this, interop
      ensures isDisposed
      ensures old(isDisposed) ==> unchanged(this) && unchanged(interop)
      ensures !old(isDisposed) ==> !subscribed && !renderLoopRunning && rendererDisposed && windowDestroyed &&
                                   interop.activeCanvases == old(interop.activeCanvases) - {hwnd}
    {
      var _ := DisposeCore(true);
    }

    method CanvasFinalize()
      modifies this, interop
      ensures isDisposed
      ensures old(isDisposed) ==> unchanged(this) && unchanged(interop)
      ensures !old(isDisposed) ==> subscribed == old(subscribed) && !renderLoopRunning && rendererDisposed && windowDestroyed &&
                                   interop.activeCanvases == old(interop.activeCanvases) - {hwnd}
    {
      var _ := DisposeCore(false);
    }
  }

  /** A second Dispose after a first changes nothing: what the first one did stays done. */
  method DisposeTwice(canvas: TsumikiCanvas)
    modifies canvas, canvas.interop
    ensures canvas.isDisposed
    ensures old(!canvas.isDisposed) ==>
              !canvas.subscribed && !canvas.renderLoopRunning && canvas.rendererDisposed && canvas.windowDestroyed &&
              canvas.interop.activeCanvases == old(canvas.interop.activeCanvases) - {canvas.hwnd}
  {
    canvas.Dispose();
    canvas.Dispose();
  }
}
