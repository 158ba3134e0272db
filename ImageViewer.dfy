/** The scan viewer of the results page: zoom in quarter steps between one
    half and three, drag-to-pan while zoomed in, reset and full screen.
    The zoom factor is kept as a whole number of quarters, so the factor
    `z` of the page is `quarters / 4`. Cursor coordinates are pixels. */
module ImageViewer {
  const MinQuarters: int := 2
  const MaxQuarters: int := 12
  /** A zoom factor of 1. */
  const UnitQuarters: int := 4

  /** The zoom factor a number of quarters stands for. */
  function Zoom(quarters: int): real
  {
    quarters as real / 4.0
  }

  function Min(a: int, b: int): int { if a <= b then a else b }
  function Max(a: int, b: int): int { if a >= b then a else b }

  /** `Math.min(z + 0.25, 3)`, in quarters. */
  function ZoomedIn(q: int): (r: int)
    ensures Zoom(r) == if Zoom(q) + 0.25 <= 3.0 then Zoom(q) + 0.25 else 3.0
  {
    Min(q + 1, MaxQuarters)
  }

  /** `Math.max(z - 0.25, 0.5)`, in quarters. */
  function ZoomedOut(q: int): (r: int)
    ensures Zoom(r) == if Zoom(q) - 0.25 >= 0.5 then Zoom(q) - 0.25 else 0.5
  {
    Max(q - 1, MinQuarters)
  }

  /** `Math.round(zoom * 100)`: since the factor is a whole number of
      quarters the product is already whole, a multiple of 25. */
  function ZoomLabel(q: int): (pct: int)
    ensures pct as real == Zoom(q) * 100.0
    ensures pct % 25 == 0
  {
    q * 25
  }

  /** The zoom buttons' `disabled` flags match the two clamps: a button is
      disabled exactly when pressing it would change nothing, and within
      the range the two are never disabled together. */
  lemma ZoomButtons(q: int)
    requires MinQuarters <= q <= MaxQuarters
    ensures Zoom(q) >= 3.0 <==> ZoomedIn(q) == q
    ensures Zoom(q) <= 0.5 <==> ZoomedOut(q) == q
    ensures !(Zoom(q) >= 3.0 && Zoom(q) <= 0.5)
  {
  }

  class Viewer {
    var zoomQuarters: int
    var x: int
    var y: int
    var isDragging: bool
    var dragStartX: int
    var dragStartY: int
    var isFullscreen: bool

    /** The zoom stays within one half and three. */
    predicate Valid()
      reads this
    {
      MinQuarters <= zoomQuarters <= MaxQuarters
    }

    constructor ()
      ensures Valid()
      ensures zoomQuarters == UnitQuarters && x == 0 && y == 0
      ensures !isDragging && dragStartX == 0 && dragStartY == 0 && !isFullscreen
    {
      zoomQuarters := UnitQuarters;
      x, y := 0, 0;
      isDragging := false;
      dragStartX, dragStartY := 0, 0;
      isFullscreen := false;
    }

    function ZoomInDisabled(): bool
      reads this
    {
      Zoom(zoomQuarters) >= 3.0
    }

    function ZoomOutDisabled(): bool
      reads this
    {
      Zoom(zoomQuarters) <= 0.5
    }

    /** "Click and drag to pan" is shown while zoomed in. */
    function PanHintShown(): bool
      reads this
    {
      zoomQuarters > UnitQuarters
    }

    method HandleZoomIn()
      requires Valid()
      modifies this`zoomQuarters
      ensures Valid()
      ensures zoomQuarters == ZoomedIn(old(zoomQuarters))
    {
      zoomQuarters := Min(zoomQuarters + 1, MaxQuarters);
    }

    method HandleZoomOut()
      requires Valid()
      modifies this`zoomQuarters
      ensures Valid()
      ensures zoomQuarters == ZoomedOut(old(zoomQuarters))
    {
      zoomQuarters := Max(zoomQuarters - 1, MinQuarters);
    }

    method HandleResetView()
      modifies this`zoomQuarters, this`x, this`y
      ensures Valid()
      ensures Zoom(zoomQuarters) == 1.0 && x == 0 && y == 0
    {
      zoomQuarters := UnitQuarters;
      x, y := 0, 0;
    }

    /** A press starts a drag only when zoomed in, remembering where the
        cursor is relative to the image's offset. */
    method HandleMouseDown(clientX: int, clientY: int)
      modifies this`isDragging, this`dragStartX, this`dragStartY
      ensures zoomQuarters > UnitQuarters ==>
        isDragging && dragStartX == clientX - x && dragStartY == clientY - y
      ensures zoomQuarters <= UnitQuarters ==>
        isDragging == old(isDragging) && dragStartX == old(dragStartX) && dragStartY == old(dragStartY)
    {
      if zoomQuarters > UnitQuarters {
        isDragging := true;
        dragStartX, dragStartY := clientX - x, clientY - y;
      }
    }

    /** A move during a drag, while zoomed in, puts the image at the
        cursor less the remembered start. */
    method HandleMouseMove(clientX: int, clientY: int)
      modifies this`x, this`y
      ensures isDragging && zoomQuarters > UnitQuarters ==> x == clientX - dragStartX && y == clientY - dragStartY
      ensures !(isDragging && zoomQuarters > UnitQuarters) ==> x == old(x) && y == old(y)
    {
      if isDragging && zoomQuarters > UnitQuarters {
        x, y := clientX - dragStartX, clientY - dragStartY;
      }
    }

    method HandleMouseUp()
      modifies this`isDragging
      ensures !isDragging
    {
      isDragging := false;
    }

    method ToggleFullscreen()
      modifies this`isFullscreen
      ensures isFullscreen == !old(isFullscreen)
    {
      isFullscreen := !isFullscreen;
    }

    /** A press at (px, py) followed by a move to (cx, cy): when zoomed in
        the image moves by exactly the cursor's displacement, and when not
        zoomed in it does not move. */
    method PressAndMove(px: int, py: int, cx: int, cy: int)
      modifies this`isDragging, this`dragStartX, this`dragStartY, this`x, this`y
      ensures old(zoomQuarters) > UnitQuarters ==> x == old(x) + (cx - px) && y == old(y) + (cy - py)
      ensures old(zoomQuarters) <= UnitQuarters ==> x == old(x) && y == old(y)
    {
      HandleMouseDown(px, py);
      HandleMouseMove(cx, cy);
    }
  }
}
