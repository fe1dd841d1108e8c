/**
 * The value types of Tsumiki.View/ITsumikiCanvas.cs (Rect, RectF and the identity of a
 * visual) and the 3:2 size normalisation that both platform canvases apply in Resize.
 */
module CanvasGeometry {
  import opened Common

  /** Rect: an integer rectangle given by its edges. */
  datatype Rect = Rect(left: int, top: int, right: int, bottom: int)
  {
    function Width(): int { right - left }
    function Height(): int { bottom - top }
  }

  /** RectF: a float rectangle given by its edges. */
  datatype RectF = RectF(left: real, top: real, right: real, bottom: real)

  /** A visual, compared by identity. */
  datatype Visual = Visual(id: nat)

  /** The number of 3:2 units a rectangle fits: min(Width / 3, Height / 2), C# division. */
  function Units(r: Rect): int
  {
    MinInt(TruncDiv(r.Width(), 3), TruncDiv(r.Height(), 2))
  }

  /**
   * The Resize normalisation: the rectangle normalised by width and the one normalised
   * by height share the top-left corner; the narrower one is taken.
   */
  function NormalizedRect(r: Rect): (n: Rect)
    ensures n.left == r.left && n.top == r.top
    ensures n.Width() == 3 * Units(r) && n.Height() == 2 * Units(r)
  {
    var byWidth := Rect(r.left, r.top, r.left + TruncDiv(r.Width(), 3) * 3, r.top + TruncDiv(r.Width(), 3) * 2);
    var byHeight := Rect(r.left, r.top, r.left + TruncDiv(r.Height(), 2) * 3, r.top + TruncDiv(r.Height(), 2) * 2);
    if byWidth.Width() < byHeight.Width() then byWidth else byHeight
  }

  /** The normalised size has the aspect ratio 3:2 exactly, for every request. */
  lemma NormalizedIsThreeByTwo(r: Rect)
    ensures 2 * NormalizedRect(r).Width() == 3 * NormalizedRect(r).Height()
  {
  }

  /**
   * For a rectangle of non-negative size the normalised one fits inside it, and it is
   * the largest 3:2 rectangle of whole units that does.
   */
  lemma NormalizedFitsAndIsLargest(r: Rect, k: int)
    requires r.Width() >= 0 && r.Height() >= 0
    ensures var n := NormalizedRect(r);
            0 <= n.Width() <= r.Width() && 0 <= n.Height() <= r.Height() &&
            n.right <= r.right && n.bottom <= r.bottom
    ensures 3 * k <= r.Width() && 2 * k <= r.Height() ==> k <= Units(r)
  {
    var w, h := r.Width(), r.Height();
    assert w / 3 * 3 <= w && h / 2 * 2 <= h;
  }

  /** Normalising a normalised rectangle changes nothing. */
  lemma NormalizedIdempotent(r: Rect)
    requires r.Width() >= 0 && r.Height() >= 0
    ensures NormalizedRect(NormalizedRect(r)) == NormalizedRect(r)
  {
    var n := NormalizedRect(r);
    var k := Units(r);
    NormalizedFitsAndIsLargest(r, 0);
    assert n.Width() == 3 * k && n.Height() == 2 * k && k >= 0;
    assert TruncDiv(3 * k, 3) == k;
    assert TruncDiv(2 * k, 2) == k;
  }
}
