/**
 * The listing photo gallery: a selected index that wraps around, a full-screen view with a
 * zoom level clamped between 0.5 and 3 in steps of 0.5, mouse panning while zoomed in, and
 * horizontal swipes. Zoom is kept in half-units (2 stands for 1.0); coordinates are integers.
 */
module ImageGallery {

  const MinSwipeDistance := 50
  /** Zoom bounds and the reset value, in half-units. */
  const MinZoom := 1
  const MaxZoom := 6
  const NormalZoom := 2

  /** An empty image list renders a placeholder and offers no controls. */
  datatype Rendered = Placeholder | Gallery

  function RenderOf(images: seq<string>): (r: Rendered)
    ensures r == Placeholder <==> |images| == 0
  {
    if |images| == 0 then Placeholder else Gallery
  }

  /** `goToNext`: the last image is followed by the first. */
  function Next(i: int, n: int): (r: int)
    requires 0 <= i < n
    ensures 0 <= r < n && r == (i + 1) % n
  {
    if i == n - 1 then 0 else i + 1
  }

  /** `goToPrevious`: the first image is preceded by the last. */
  function Previous(i: int, n: int): (r: int)
    requires 0 <= i < n
    ensures 0 <= r < n && r == (i - 1 + n) % n
  {
    if i == 0 then n - 1 else i - 1
  }

  lemma NextPreviousInverse(i: int, n: int)
    requires 0 <= i < n
    ensures Previous(Next(i, n), n) == i
    ensures Next(Previous(i, n), n) == i
  {
  }

  /** `k` presses of "next". */
  function NextTimes(i: int, n: int, k: nat): (r: int)
    requires 0 <= i < n
    ensures 0 <= r < n
  {
    if k == 0 then i else Next(NextTimes(i, n, k - 1), n)
  }

  /** Pressing "next" `a` times and then `b` times is pressing it `a + b` times. */
  lemma {:induction false} NextTimesAdds(i: int, n: int, a: nat, b: nat)
    requires 0 <= i < n
    ensures NextTimes(i, n, a + b) == NextTimes(NextTimes(i, n, a), n, b)
  {
    if b > 0 {
      NextTimesAdds(i, n, a, b - 1);
    }
  }

  /** Short of the last image, `k` presses move `k` places. */
  lemma {:induction false} NextTimesClimbs(i: int, n: int, k: nat)
    requires 0 <= i && i + k < n
    ensures NextTimes(i, n, k) == i + k
  {
    if k > 0 {
      NextTimesClimbs(i, n, k - 1);
    }
  }

  /** Going through all `n` images with "next" comes back to the start. */
  lemma FullCycle(i: int, n: int)
    requires 0 <= i < n
    ensures NextTimes(i, n, n) == i
  {
    NextTimesAdds(i, n, n - 1 - i, i + 1);
    NextTimesClimbs(i, n, n - 1 - i);
    NextTimesAdds(n - 1, n, 1, i);
    NextTimesClimbs(0, n, i);
  }

  /** `handleZoomIn` and `handleZoomOut`: half a step, never past 3 or below 0.5. */
  function ZoomIn(z: int): int {
    if z + 1 < MaxZoom then z + 1 else MaxZoom
  }

  function ZoomOut(z: int): int {
    if z - 1 > MinZoom then z - 1 else MinZoom
  }

  /** A zoom level inside the bounds stays inside them, and zooming out undoes a zoom in below the cap. */
  lemma ZoomStaysInBounds(z: int)
    requires MinZoom <= z <= MaxZoom
    ensures MinZoom <= ZoomIn(z) <= MaxZoom && MinZoom <= ZoomOut(z) <= MaxZoom
    ensures z < MaxZoom ==> ZoomOut(ZoomIn(z)) == z
    ensures z > MinZoom ==> ZoomIn(ZoomOut(z)) == z
  {
  }

  datatype Swipe = SwipeNext | SwipePrevious | NoSwipe

  function Abs(x: int): nat {
    if x < 0 then -x else x
  }

  /**
   * How a finished touch is read, from the start minus the end position: a mostly horizontal
   * move of more than 50 pixels; leftwards (positive `dx`) goes to the next image.
   */
  function SwipeOf(dx: int, dy: int): (s: Swipe)
    ensures s != NoSwipe <==> Abs(dx) > Abs(dy) && Abs(dx) > MinSwipeDistance
    ensures s == SwipeNext ==> dx > MinSwipeDistance
    ensures s == SwipePrevious ==> dx < -MinSwipeDistance
  {
    if Abs(dx) > Abs(dy) && Abs(dx) > MinSwipeDistance then
      if dx > 0 then SwipeNext else SwipePrevious
    else NoSwipe
  }

  /** A vertical scroll is never a swipe, however long. */
  lemma VerticalIsNotSwipe(dx: int, dy: int)
    requires Abs(dy) >= Abs(dx)
    ensures SwipeOf(dx, dy) == NoSwipe
  {
  }

  class ImageGalleryState {
    const images: seq<string>
    var selectedIndex: int
    var showModal: bool
    var zoom: int
    var panX: int
    var panY: int
    var isPanning: bool
    var touchStartX: int
    var touchStartY: int
    var lastPanX: int
    var lastPanY: int

    ghost predicate Valid()
      reads this
    {
      0 <= selectedIndex && (|images| > 0 ==> selectedIndex < |images|)
      && MinZoom <= zoom <= MaxZoom
    }

    constructor (images: seq<string>)
      ensures this.images == images && selectedIndex == 0 && !showModal && zoom == NormalZoom
      ensures panX == 0 && panY == 0 && !isPanning
      ensures touchStartX == 0 && touchStartY == 0 && lastPanX == 0 && lastPanY == 0
      ensures Valid()
    {
      this.images := images;
      selectedIndex := 0;
      showModal := false;
      zoom := NormalZoom;
      panX, panY := 0, 0;
      isPanning := false;
      touchStartX, touchStartY := 0, 0;
      lastPanX, lastPanY := 0, 0;
    }

    method GoToNext()
      requires Valid() && |images| > 0
      modifies this
      ensures selectedIndex == Next(old(selectedIndex), |images|)
      ensures showModal == old(showModal) && zoom == old(zoom) && panX == old(panX) && panY == old(panY)
      ensures isPanning == old(isPanning)
      ensures touchStartX == old(touchStartX) && touchStartY == old(touchStartY)
      ensures lastPanX == old(lastPanX) && lastPanY == old(lastPanY)
      ensures Valid()
    {
      selectedIndex := Next(selectedIndex, |images|);
    }

    method GoToPrevious()
      requires Valid() && |images| > 0
      modifies this
      ensures selectedIndex == Previous(old(selectedIndex), |images|)
      ensures showModal == old(showModal) && zoom == old(zoom) && panX == old(panX) && panY == old(panY)
      ensures isPanning == old(isPanning)
      ensures touchStartX == old(touchStartX) && touchStartY == old(touchStartY)
      ensures lastPanX == old(lastPanX) && lastPanY == old(lastPanY)
      ensures Valid()
    {
      selectedIndex := Previous(selectedIndex, |images|);
    }

    /** A thumbnail click selects that image directly. */
    method SelectImage(index: int)
      requires Valid() && 0 <= index < |images|
      modifies this
      ensures selectedIndex == index
      ensures showModal == old(showModal) && zoom == old(zoom) && panX == old(panX) && panY == old(panY)
      ensures isPanning == old(isPanning)
      ensures touchStartX == old(touchStartX) && touchStartY == old(touchStartY)
      ensures lastPanX == old(lastPanX) && lastPanY == old(lastPanY)
      ensures Valid()
    {
      selectedIndex := index;
    }

    /** `resetZoom`: zoom back to 1 and the pan offset back to the origin. */
    method ResetZoom()
      requires Valid()
      modifies this
      ensures zoom == NormalZoom && panX == 0 && panY == 0
      ensures showModal == old(showModal) && selectedIndex == old(selectedIndex) && isPanning == old(isPanning)
      ensures touchStartX == old(touchStartX) && touchStartY == old(touchStartY)
      ensures lastPanX == old(lastPanX) && lastPanY == old(lastPanY)
      ensures Valid()
    {
      zoom := NormalZoom;
      panX, panY := 0, 0;
    }

    /** `openModal` and `closeModal` also reset zoom and pan. */
    method SetModal(open: bool)
      requires Valid()
      modifies this
      ensures showModal == open && zoom == NormalZoom && panX == 0 && panY == 0
      ensures selectedIndex == old(selectedIndex) && isPanning == old(isPanning)
      ensures touchStartX == old(touchStartX) && touchStartY == old(touchStartY)
      ensures lastPanX == old(lastPanX) && lastPanY == old(lastPanY)
      ensures Valid()
    {
      showModal := open;
      ResetZoom();
    }

    method ZoomInStep()
      requires Valid()
      modifies this
      ensures zoom == ZoomIn(old(zoom)) && panX == old(panX) && panY == old(panY)
      ensures selectedIndex == old(selectedIndex) && showModal == old(showModal) && isPanning == old(isPanning)
      ensures touchStartX == old(touchStartX) && touchStartY == old(touchStartY)
      ensures lastPanX == old(lastPanX) && lastPanY == old(lastPanY)
      ensures Valid()
    {
      zoom := ZoomIn(zoom);
    }

    method ZoomOutStep()
      requires Valid()
      modifies this
      ensures zoom == ZoomOut(old(zoom)) && panX == old(panX) && panY == old(panY)
      ensures selectedIndex == old(selectedIndex) && showModal == old(showModal) && isPanning == old(isPanning)
      ensures touchStartX == old(touchStartX) && touchStartY == old(touchStartY)
      ensures lastPanX == old(lastPanX) && lastPanY == old(lastPanY)
      ensures Valid()
    {
      zoom := ZoomOut(zoom);
    }

    /** `handleWheel`: scrolling up zooms in, anything else zooms out. */
    method Wheel(deltaY: int)
      requires Valid()
      modifies this
      ensures zoom == if deltaY < 0 then ZoomIn(old(zoom)) else ZoomOut(old(zoom))
      ensures panX == old(panX) && panY == old(panY) && selectedIndex == old(selectedIndex)
      ensures showModal == old(showModal) && isPanning == old(isPanning)
      ensures touchStartX == old(touchStartX) && touchStartY == old(touchStartY)
      ensures lastPanX == old(lastPanX) && lastPanY == old(lastPanY)
      ensures Valid()
    {
      if deltaY < 0 {
        ZoomInStep();
      } else {
        ZoomOutStep();
      }
    }

    /** `handleMouseDown`: only a zoomed-in image starts a pan, remembering the grab point relative to the offset. */
    method MouseDown(clientX: int, clientY: int)
      requires Valid()
      modifies this
      ensures zoom > NormalZoom ==>
        isPanning && lastPanX == clientX - panX && lastPanY == clientY - panY
      ensures zoom <= NormalZoom ==>
        isPanning == old(isPanning) && lastPanX == old(lastPanX) && lastPanY == old(lastPanY)
      ensures panX == old(panX) && panY == old(panY) && zoom == old(zoom)
      ensures selectedIndex == old(selectedIndex) && showModal == old(showModal)
      ensures touchStartX == old(touchStartX) && touchStartY == old(touchStartY)
      ensures Valid()
    {
      if zoom > NormalZoom {
        isPanning := true;
        lastPanX := clientX - panX;
        lastPanY := clientY - panY;
      }
    }

    /** `handleMouseMove`: the offset follows the pointer only while panning a zoomed-in image. */
    method MouseMove(clientX: int, clientY: int)
      requires Valid()
      modifies this
      ensures isPanning && zoom > NormalZoom ==> panX == clientX - lastPanX && panY == clientY - lastPanY
      ensures !(isPanning && zoom > NormalZoom) ==> panX == old(panX) && panY == old(panY)
      ensures isPanning == old(isPanning) && zoom == old(zoom) && lastPanX == old(lastPanX) && lastPanY == old(lastPanY)
      ensures selectedIndex == old(selectedIndex) && showModal == old(showModal)
      ensures touchStartX == old(touchStartX) && touchStartY == old(touchStartY)
      ensures Valid()
    {
      if isPanning && zoom > NormalZoom {
        panX := clientX - lastPanX;
        panY := clientY - lastPanY;
      }
    }

    method MouseUp()
      requires Valid()
      modifies this
      ensures !isPanning && panX == old(panX) && panY == old(panY) && zoom == old(zoom)
      ensures selectedIndex == old(selectedIndex) && showModal == old(showModal)
      ensures touchStartX == old(touchStartX) && touchStartY == old(touchStartY)
      ensures lastPanX == old(lastPanX) && lastPanY == old(lastPanY)
      ensures Valid()
    {
      isPanning := false;
    }

    method TouchStart(clientX: int, clientY: int)
      requires Valid()
      modifies this
      ensures touchStartX == clientX && touchStartY == clientY
      ensures selectedIndex == old(selectedIndex) && zoom == old(zoom) && panX == old(panX) && panY == old(panY)
      ensures showModal == old(showModal) && isPanning == old(isPanning)
      ensures lastPanX == old(lastPanX) && lastPanY == old(lastPanY)
      ensures Valid()
    {
      touchStartX, touchStartY := clientX, clientY;
    }

    /**
     * `handleTouchEnd`. A touch whose recorded start has a zero coordinate is ignored outright,
     * start included. Otherwise a swipe moves the selection, and the start is reset to zero.
     */
    method TouchEnd(clientX: int, clientY: int)
      requires Valid() && |images| > 0
      modifies this
      ensures old(touchStartX) == 0 || old(touchStartY) == 0 ==>
        selectedIndex == old(selectedIndex) && touchStartX == old(touchStartX) && touchStartY == old(touchStartY)
      ensures old(touchStartX) != 0 && old(touchStartY) != 0 ==>
        touchStartX == 0 && touchStartY == 0
        && selectedIndex == match SwipeOf(old(touchStartX) - clientX, old(touchStartY) - clientY)
                            case SwipeNext => Next(old(selectedIndex), |images|)
                            case SwipePrevious => Previous(old(selectedIndex), |images|)
                            case NoSwipe => old(selectedIndex)
      ensures zoom == old(zoom) && panX == old(panX) && panY == old(panY) && showModal == old(showModal)
      ensures isPanning == old(isPanning) && lastPanX == old(lastPanX) && lastPanY == old(lastPanY)
      ensures Valid()
    {
      if touchStartX == 0 || touchStartY == 0 {
        return;
      }
      var swipe := SwipeOf(touchStartX - clientX, touchStartY - clientY);
      if swipe == SwipeNext {
        GoToNext();
      } else if swipe == SwipePrevious {
        GoToPrevious();
      }
      touchStartX, touchStartY := 0, 0;
    }
  }

  /**
   * Dragging a zoomed-in image (press, move, release) moves it by exactly the pointer's
   * displacement and leaves it no longer panning.
   */
  method Drag(g: ImageGalleryState, fromX: int, fromY: int, toX: int, toY: int)
    requires g.Valid() && g.zoom > NormalZoom
    modifies g
    ensures g.panX == old(g.panX) + (toX - fromX) && g.panY == old(g.panY) + (toY - fromY)
    ensures !g.isPanning && g.zoom == old(g.zoom) && g.selectedIndex == old(g.selectedIndex)
    ensures g.Valid()
  {
    g.MouseDown(fromX, fromY);
    g.MouseMove(toX, toY);
    g.MouseUp();
  }
}
