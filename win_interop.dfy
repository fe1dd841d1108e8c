/**
 * The logic of Tsumiki.View.Win/WinInterop.cs: the decoding of mouse coordinates from
 * a message's lParam, the registry of active canvases by window handle, the one-time
 * window-class registration and the window procedure's dispatch of mouse messages.
 * The Win32 calls themselves are not modelled: the module handle is a parameter,
 * RegisterClassExW is counted, and DefWindowProcW is reported as called.
 */
module WinInterop {
  import opened Common

  const ClassName: string := "TsumikiPlugin"

  /** WindowMessage values the window procedure handles. */
  const MouseMoveMessage: int := 0x0200
  const LeftButtonDownMessage: int := 0x0201
  const LeftButtonUpMessage: int := 0x0202
  const LeftButtonDoubleClickMessage: int := 0x0203

  datatype MouseAction = MouseMove | LeftButtonDown | LeftButtonUp | LeftButtonDoubleClick

  /** The mouse action of a message, if it is one of the four mouse messages. */
  function MessageAction(message: int): (a: Option<MouseAction>)
    ensures a.Some? <==> MouseMoveMessage <= message <= LeftButtonDoubleClickMessage
  {
    if message == MouseMoveMessage then Some(MouseMove)
    else if message == LeftButtonDownMessage then Some(LeftButtonDown)
    else if message == LeftButtonUpMessage then Some(LeftButtonUp)
    else if message == LeftButtonDoubleClickMessage then Some(LeftButtonDoubleClick)
    else None
  }

  /** (short) of a 16-bit pattern 0 <= b < 65536: the pattern read as a two's-complement number. */
  function ToSigned16(b: int): (v: int)
    requires 0 <= b < 0x1_0000
    ensures -0x8000 <= v < 0x8000
    ensures v >= 0 <==> b < 0x8000
  {
    if b < 0x8000 then b else b - 0x1_0000
  }

  /** (ushort)v for a short v: its two's-complement 16-bit pattern. */
  function ToUnsigned16(v: int): (b: int)
    requires -0x8000 <= v < 0x8000
    ensures 0 <= b < 0x1_0000 && ToSigned16(b) == v
  {
    if v >= 0 then v else v + 0x1_0000
  }

  /**
   * GetCoordinates on the value of lParam: (uint) keeps the low 32 bits (the Euclidean
   * remainder modulo 2^32, also for a negative lParam); x is bits 0 to 15 and y bits 16
   * to 31, each read as a signed 16-bit number.
   */
  function GetCoordinates(lParam: int): (xy: (int, int))
    ensures -0x8000 <= xy.0 < 0x8000 && -0x8000 <= xy.1 < 0x8000
  {
    var low := lParam % 0x1_0000_0000;
    (ToSigned16(low % 0x1_0000), ToSigned16((low / 0x1_0000) % 0x1_0000))
  }

  /** How Windows packs a point into lParam: (ushort)x | ((ushort)y << 16), the two patterns side by side. */
  function PackCoordinates(x: int, y: int): (p: int)
    requires -0x8000 <= x < 0x8000 && -0x8000 <= y < 0x8000
    ensures 0 <= p < 0x1_0000_0000
  {
    ToUnsigned16(x) + ToUnsigned16(y) * 0x1_0000
  }

  /** Decoding a packed point returns the point. */
  lemma CoordinatesRoundTrip(x: int, y: int)
    requires -0x8000 <= x < 0x8000 && -0x8000 <= y < 0x8000
    ensures GetCoordinates(PackCoordinates(x, y)) == (x, y)
  {
    var ux, uy := ToUnsigned16(x), ToUnsigned16(y);
    var p := PackCoordinates(x, y);
    DivModUnique(p, 0x1_0000_0000, 0, p);
    DivModUnique(p, 0x1_0000, uy, ux);
  }

  /** Bits above 31 never reach the coordinates. */
  lemma HighBitsIgnored(lParam: int, high: int)
    ensures GetCoordinates(lParam) == GetCoordinates(lParam % 0x1_0000_0000 + high * 0x1_0000_0000)
  {
    var low := lParam % 0x1_0000_0000;
    DivModUnique(low + high * 0x1_0000_0000, 0x1_0000_0000, high, low);
  }

  /** A mouse message delivered to a canvas, with its decoded coordinates. */
  datatype Delivery<Canvas> = Delivery(canvas: Canvas, action: MouseAction, x: int, y: int)

  /** What the window procedure does with a message: the delivery, if any, and whether DefWindowProcW is called. */
  datatype WndProcResult<Canvas> = WndProcResult(delivery: Option<Delivery<Canvas>>, callsDefault: bool)

  /** The static state of WinInterop, over the canvas type it registers. */
  class Interop<Canvas(==)> {
    var classRegistered: bool
    var activeCanvases: map<int, Canvas>
    /** How often RegisterClassExW was called. */
    var registrations: nat

    /** The flag is set exactly when the class was registered, and that happened once. */
    ghost predicate Valid()
      reads this
    {
      registrations == if classRegistered then 1 else 0
    }

    constructor ()
      ensures Valid() && !classRegistered && activeCanvases == map[]
    {
      classRegistered := false;
      activeCanvases := map[];
      registrations := 0;
    }

    /** AddCanvas: the handle maps to the canvas, replacing an earlier entry. */
    method AddCanvas(hwnd: int, canvas: Canvas)
      modifies this
      ensures activeCanvases == old(activeCanvases)[hwnd := canvas]
      ensures classRegistered == old(classRegistered) && registrations == old(registrations)
    {
      activeCanvases := activeCanvases[hwnd := canvas];
    }

    /** RemoveCanvas: only the entry of that handle goes. */
    method RemoveCanvas(hwnd: int)
      modifies this
      ensures activeCanvases == old(activeCanvases) - {hwnd}
      ensures classRegistered == old(classRegistered) && registrations == old(registrations)
    {
      activeCanvases := activeCanvases - {hwnd};
    }

    /** RegisterClass: once only, and not at all while the module handle is 0. */
    method RegisterClass(moduleHandle: int)
      requires Valid()
      modifies this
      ensures Valid() && registrations <= 1
      ensures classRegistered == (old(classRegistered) || moduleHandle != 0)
      ensures activeCanvases == old(activeCanvases)
    {
      if classRegistered {
        return;
      }
      var instance := moduleHandle;
      if instance == 0 {
        return;
      }
      registrations := registrations + 1;
      classRegistered := true;
    }

    /**
     * WndProc: a mouse message reaches the canvas registered for the window, with its
     * coordinates decoded; every message, delivered or not, goes on to DefWindowProcW.
     */
    function WndProc(hwnd: int, message: int, lParam: int): (r: WndProcResult<Canvas>)
      reads this
      ensures r.callsDefault
      ensures r.delivery.Some? <==> MessageAction(message).Some? && hwnd in activeCanvases
      ensures r.delivery.Some? ==>
                r.delivery.value == Delivery(activeCanvases[hwnd], MessageAction(message).value,
                                             GetCoordinates(lParam).0, GetCoordinates(lParam).1)
    {
      match MessageAction(message)
      case Some(action) =>
        if hwnd in activeCanvases then
          var (x, y) := GetCoordinates(lParam);
          WndProcResult(Some(Delivery(activeCanvases[hwnd], action, x, y)), true)
        else WndProcResult(None, true)
      case None => WndProcResult(None, true)
    }
  }
}
