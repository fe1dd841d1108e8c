/**
 * The frame bookkeeping of Tsumiki.View.Win/Renderer.cs: the queue of visuals
 * registered since the last frame, the visuals rendered last frame, the de-duplicating
 * set and the pending resize, plus the vertex layout DrawImage writes. The Direct3D
 * calls are not modelled; what the renderer does to the screen is recorded as a
 * sequence of events (resize, clear, render of a visual, present).
 */
module WinRenderer {
  import opened Common
  import opened CanvasGeometry

  /** A vertex: position (x, y, z, w) and texture coordinate (u, v). */
  datatype Vertex = Vertex(x: real, y: real, z: real, w: real, u: real, v: real)

  datatype RenderEvent = GraphicsResized(width: int, height: int) | Cleared | Rendered(visual: Visual) | Presented

  /** The visuals of q[..n] without repeats, each at its first occurrence. */
  function Distinct(q: seq<Visual>, n: nat): (d: seq<Visual>)
    requires n <= |q|
    ensures |d| <= n
    decreases n
  {
    if n == 0 then []
    else
      var p := Distinct(q, n - 1);
      if q[n - 1] in p then p else p + [q[n - 1]]
  }

  /** A visual is kept exactly when it was queued. */
  lemma {:induction false} DistinctElements(q: seq<Visual>, n: nat)
    requires n <= |q|
    ensures forall x :: x in Distinct(q, n) <==> x in q[..n]
    decreases n
  {
    if n > 0 {
      DistinctElements(q, n - 1);
      assert q[..n] == q[..n - 1] + [q[n - 1]];
    }
  }

  /** No visual is kept twice. */
  lemma {:induction false} DistinctNoRepeats(q: seq<Visual>, n: nat)
    requires n <= |q|
    ensures forall i, j :: 0 <= i < j < |Distinct(q, n)| ==> Distinct(q, n)[i] != Distinct(q, n)[j]
    decreases n
  {
    if n > 0 {
      DistinctNoRepeats(q, n - 1);
    }
  }

  /** Where each kept visual first occurs in the queue. */
  function FirstPositions(q: seq<Visual>, n: nat): (ps: seq<int>)
    requires n <= |q|
    ensures |ps| == |Distinct(q, n)|
    decreases n
  {
    if n == 0 then []
    else
      var p := FirstPositions(q, n - 1);
      if q[n - 1] in Distinct(q, n - 1) then p else p + [n - 1]
  }

  /**
   * The kept visuals are in first-occurrence order: the k-th one is the queue entry at
   * an increasing position where that visual occurs for the first time.
   */
  lemma {:induction false} DistinctInFirstOccurrenceOrder(q: seq<Visual>, n: nat)
    requires n <= |q|
    ensures forall k :: 0 <= k < |Distinct(q, n)| ==>
              0 <= FirstPositions(q, n)[k] < n && q[FirstPositions(q, n)[k]] == Distinct(q, n)[k] &&
              Distinct(q, n)[k] !in q[..FirstPositions(q, n)[k]]
    ensures forall k, l :: 0 <= k < l < |Distinct(q, n)| ==> FirstPositions(q, n)[k] < FirstPositions(q, n)[l]
    decreases n
  {
    if n > 0 {
      DistinctInFirstOccurrenceOrder(q, n - 1);
      DistinctElements(q, n - 1);
      var d, ps := Distinct(q, n - 1), FirstPositions(q, n - 1);
      if q[n - 1] !in d {
        var d', ps' := Distinct(q, n), FirstPositions(q, n);
        assert d' == d + [q[n - 1]] && ps' == ps + [n - 1];
        assert q[n - 1] !in q[..n - 1];
        forall k | 0 <= k < |d'|
          ensures 0 <= ps'[k] < n && q[ps'[k]] == d'[k] && d'[k] !in q[..ps'[k]]
        {
          if k < |d| {
            assert ps'[k] == ps[k] && d'[k] == d[k];
          } else {
            assert k == |d| && ps'[k] == n - 1 && d'[k] == q[n - 1];
          }
        }
      }
    }
  }

  /** A queue without repeats is kept as it is. */
  lemma {:induction false} DistinctOfDistinct(q: seq<Visual>, n: nat)
    requires n <= |q|
    requires forall i, j :: 0 <= i < j < |q| ==> q[i] != q[j]
    ensures Distinct(q, n) == q[..n]
    decreases n
  {
    if n > 0 {
      DistinctOfDistinct(q, n - 1);
      assert q[..n] == q[..n - 1] + [q[n - 1]];
    }
  }

  function RenderAll(vs: seq<Visual>): (es: seq<RenderEvent>)
    ensures |es| == |vs| && forall i :: 0 <= i < |vs| ==> es[i] == Rendered(vs[i])
  {
    seq(|vs|, i requires 0 <= i < |vs| => Rendered(vs[i]))
  }

  /** The start of a frame with a pending resize: the graphics resized and cleared. */
  function ResizeEvents(changedSize: Option<(int, int)>): seq<RenderEvent>
  {
    match changedSize
    case None => []
    case Some((width, height)) => [GraphicsResized(width, height), Cleared]
  }

  /** The corners of a triangle-strip quad: left-top, right-top, left-bottom, right-bottom. */
  function QuadCorner(r: RectF, i: int): (real, real)
  {
    (if i % 2 == 0 then r.left else r.right, if i < 2 then r.top else r.bottom)
  }

  function QuadVertex(client: RectF, image: RectF, z: real, w: real, i: int): Vertex
  {
    Vertex(QuadCorner(client, i).0, QuadCorner(client, i).1, z, w, QuadCorner(image, i).0, QuadCorner(image, i).1)
  }

  /** Renderer: the frame queues, the pending size and the vertex buffer. */
  class Renderer {
    const rootVisual: Visual
    const vertices: array<Vertex>
    var visuals: seq<Visual>
    var renderedVisuals: set<Visual>
    var prevVisuals: seq<Visual>
    var changedSize: Option<(int, int)>
    var graphicsSize: (int, int)
    var events: seq<RenderEvent>

    ghost predicate Valid()
      reads this
    {
      vertices.Length == 4
    }

    /** The constructor: the unit quad over the left three quarters of the texture, the root visual queued once, a clear. */
    constructor (width: int, height: int, rootVisual: Visual)
      ensures Valid() && fresh(vertices)
      ensures forall i :: 0 <= i < 4 ==> vertices[i] == QuadVertex(RectF(0.0, 0.0, 1.0, 1.0), RectF(0.0, 0.0, 0.75, 1.0), 0.5, 1.0, i)
      ensures this.rootVisual == rootVisual
      ensures visuals == [rootVisual] && prevVisuals == [] && renderedVisuals == {} && changedSize == None
      ensures graphicsSize == (width, height) && events == [Cleared]
    {
      this.rootVisual := rootVisual;
      var vs := new Vertex[4];
      vs[0] := Vertex(0.0, 0.0, 0.5, 1.0, 0.0, 0.0);
      vs[1] := Vertex(1.0, 0.0, 0.5, 1.0, 0.75, 0.0);
      vs[2] := Vertex(0.0, 1.0, 0.5, 1.0, 0.0, 1.0);
      vs[3] := Vertex(1.0, 1.0, 0.5, 1.0, 0.75, 1.0);
      vertices := vs;
      visuals := [rootVisual];
      renderedVisuals := {};
      prevVisuals := [];
      changedSize := None;
      graphicsSize := (width, height);
      events := [Cleared];
    }

    /** Resize: only records the size for the next frame. */
    method Resize(width: int, height: int)
      modifies this
      ensures changedSize == Some((width, height))
      ensures visuals == old(visuals) && prevVisuals == old(prevVisuals) && events == old(events)
      ensures renderedVisuals == old(renderedVisuals) && graphicsSize == old(graphicsSize)
    {
      changedSize := Some((width, height));
    }

    /** RegisterVisual: queues a visual for the next frame. */
    method RegisterVisual(visual: Visual)
      modifies this
      ensures visuals == old(visuals) + [visual]
      ensures prevVisuals == old(prevVisuals) && changedSize == old(changedSize) && events == old(events)
      ensures renderedVisuals == old(renderedVisuals) && graphicsSize == old(graphicsSize)
    {
      visuals := visuals + [visual];
    }

    /**
     * Frame: a pending resize resizes, clears and replaces the queue by the root visual;
     * then last frame's visuals are rendered again, then each distinct queued visual
     * once in first-occurrence order, and the frame is presented. The visuals rendered
     * from the queue become the next frame's previous visuals.
     */
    method Frame()
      requires Valid()
      modifies this
      ensures Valid()
      ensures var queued := if old(changedSize).Some? then [rootVisual] else old(visuals);
              var kept := Distinct(queued, |queued|);
              events == old(events) + ResizeEvents(old(changedSize)) + RenderAll(old(prevVisuals)) + RenderAll(kept) + [Presented] &&
              visuals == [] && changedSize == None && prevVisuals == kept &&
              renderedVisuals == set x | x in kept &&
              graphicsSize == (if old(changedSize).Some? then old(changedSize).value else old(graphicsSize))
    {
      if changedSize.Some? {
        var (width, height) := changedSize.value;
        changedSize := None;
        graphicsSize := (width, height);
        events := events + [GraphicsResized(width, height)];
        visuals := [rootVisual];
        events := events + [Cleared];
      }
      RenderPrevious();
      renderedVisuals := {};
      RenderQueued();
      events := events + [Presented];
    }

    /** The first loop of Frame: drain and render last frame's visuals. */
    method RenderPrevious()
      modifies this
      ensures events == old(events) + RenderAll(old(prevVisuals)) && prevVisuals == []
      ensures visuals == old(visuals) && changedSize == old(changedSize) && renderedVisuals == old(renderedVisuals)
      ensures graphicsSize == old(graphicsSize)
    {
      ghost var prev := prevVisuals;
      ghost var e0 := events;
      ghost var i := 0;
      while |prevVisuals| > 0
        invariant 0 <= i <= |prev| && prevVisuals == prev[i..]
        invariant events == e0 + RenderAll(prev[..i])
        invariant visuals == old(visuals) && changedSize == old(changedSize) && renderedVisuals == old(renderedVisuals)
        invariant graphicsSize == old(graphicsSize)
        decreases |prevVisuals|
      {
        var visual := prevVisuals[0];
        prevVisuals := prevVisuals[1..];
        events := events + [Rendered(visual)];
        assert prev[..i + 1] == prev[..i] + [visual];
        i := i + 1;
      }
      assert prev[..i] == prev;
    }

    /** The second loop of Frame: drain the queue, rendering and keeping each visual not yet rendered this frame. */
    method RenderQueued()
      requires prevVisuals == [] && renderedVisuals == {}
      modifies this
      ensures events == old(events) + RenderAll(Distinct(old(visuals), |old(visuals)|))
      ensures prevVisuals == Distinct(old(visuals), |old(visuals)|) && visuals == []
      ensures renderedVisuals == set x | x in prevVisuals
      ensures changedSize == old(changedSize) && graphicsSize == old(graphicsSize)
    {
      ghost var q := visuals;
      ghost var e0 := events;
      ghost var i := 0;
      while |visuals| > 0
        invariant 0 <= i <= |q| && visuals == q[i..]
        invariant prevVisuals == Distinct(q, i)
        invariant renderedVisuals == set x | x in prevVisuals
        invariant events == e0 + RenderAll(prevVisuals)
        invariant changedSize == old(changedSize) && graphicsSize == old(graphicsSize)
        decreases |visuals|
      {
        var visual := visuals[0];
        visuals := visuals[1..];
        assert visual == q[i];
        if visual !in renderedVisuals {
          renderedVisuals := renderedVisuals + {visual};
          events := events + [Rendered(visual)];
          prevVisuals := prevVisuals + [visual];
        }
        i := i + 1;
      }
    }

    /** DrawImage: the four vertices take the corners of the client range and the texture corners of the image range. */
    method DrawImage(clientRange: RectF, imageRange: RectF)
      requires Valid()
      modifies vertices
      ensures forall i :: 0 <= i < 4 ==>
                vertices[i] == QuadVertex(clientRange, imageRange, old(vertices[i].z), old(vertices[i].w), i)
    {
      vertices[0] := vertices[0].(x := clientRange.left, y := clientRange.top, u := imageRange.left, v := imageRange.top);
      vertices[1] := vertices[1].(x := clientRange.right, y := clientRange.top, u := imageRange.right, v := imageRange.top);
      vertices[2] := vertices[2].(x := clientRange.left, y := clientRange.bottom, u := imageRange.left, v := imageRange.bottom);
      vertices[3] := vertices[3].(x := clientRange.right, y := clientRange.bottom, u := imageRange.right, v := imageRange.bottom);
    }
  }
}
