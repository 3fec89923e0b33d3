// The work-order photo viewer (src/components/workOrder/PhotoViewer.tsx): the
// `currentIndex` and `zoom` state and the handlers and keys that move them. The
// number of photos is the `photos` prop's length; loading the image is left out.
module PhotoViewer {
  /** handleNext's index: on by one, from the last photo back to the first. */
  function NextIndex(i: int, n: nat): (r: int)
    ensures 0 <= i < n ==> 0 <= r < n
    ensures i == n - 1 ==> r == 0
  {
    if i < n - 1 then i + 1 else 0
  }

  /** handlePrevious's index: back by one, from the first photo round to the last. */
  function PrevIndex(i: int, n: nat): (r: int)
    ensures 0 <= i < n ==> 0 <= r < n
    ensures i == 0 ==> r == n - 1
  {
    if i > 0 then i - 1 else n - 1
  }

  /** On an index in range, next and previous undo each other. */
  lemma NextPrevInverse(i: int, n: nat)
    requires 0 <= i < n
    ensures PrevIndex(NextIndex(i, n), n) == i
    ensures NextIndex(PrevIndex(i, n), n) == i
  {
  }

  const MinZoom := 1.0
  const MaxZoom := 3.0
  const ZoomStep := 0.5

  /** The zoom levels the buttons can reach from 1. */
  predicate OnZoomGrid(z: real)
  {
    z == 1.0 || z == 1.5 || z == 2.0 || z == 2.5 || z == 3.0
  }

  /** handleZoomIn: `Math.min(z + 0.5, 3)` */
  function ZoomIn(z: real): (r: real)
    ensures OnZoomGrid(z) ==> OnZoomGrid(r)
    ensures r <= MaxZoom && (z <= MaxZoom ==> r >= z)
    ensures z < MaxZoom - ZoomStep ==> r == z + ZoomStep
  {
    if z + ZoomStep < MaxZoom then z + ZoomStep else MaxZoom
  }

  /** handleZoomOut: `Math.max(z - 0.5, 1)` */
  function ZoomOut(z: real): (r: real)
    ensures OnZoomGrid(z) ==> OnZoomGrid(r)
    ensures r >= MinZoom && (z >= MinZoom ==> r <= z)
    ensures z > MinZoom + ZoomStep ==> r == z - ZoomStep
  {
    if z - ZoomStep > MinZoom then z - ZoomStep else MinZoom
  }

  /** Out then in, or in then out, returns to the level away from the ends. */
  lemma ZoomInverse(z: real)
    requires OnZoomGrid(z)
    ensures z < MaxZoom ==> ZoomOut(ZoomIn(z)) == z
    ensures z > MinZoom ==> ZoomIn(ZoomOut(z)) == z
  {
  }

  /** What a key press asks of the page around the viewer. */
  datatype KeyEffect = NoEffect | CloseRequested

  class Viewer {
    var currentIndex: int
    var zoom: real
    var isLoading: bool

    /** The zoom is one of the reachable levels. */
    predicate Valid()
      reads this
    {
      OnZoomGrid(zoom)
    }

    constructor (initialIndex: int)
      ensures currentIndex == initialIndex && zoom == 1.0 && isLoading && Valid()
    {
      currentIndex := initialIndex;
      zoom := 1.0;
      isLoading := true;
    }

    /** The effect on `[initialIndex, isOpen]`: back to the given photo at zoom 1. The
      * `[currentIndex]` effect marks the photo as loading when the index moved. */
    method Reset(initialIndex: int)
      modifies this
      ensures currentIndex == initialIndex && zoom == 1.0 && Valid()
      ensures isLoading == (old(isLoading) || initialIndex != old(currentIndex))
    {
      if initialIndex != currentIndex {
        isLoading := true;
      }
      currentIndex := initialIndex;
      zoom := 1.0;
    }

    method HandleNext(photoCount: nat)
      modifies this
      ensures currentIndex == NextIndex(old(currentIndex), photoCount) && zoom == old(zoom)
      ensures isLoading == (old(isLoading) || currentIndex != old(currentIndex))
    {
      var next := NextIndex(currentIndex, photoCount);
      if next != currentIndex {
        isLoading := true;
      }
      currentIndex := next;
    }

    method HandlePrevious(photoCount: nat)
      modifies this
      ensures currentIndex == PrevIndex(old(currentIndex), photoCount) && zoom == old(zoom)
      ensures isLoading == (old(isLoading) || currentIndex != old(currentIndex))
    {
      var prev := PrevIndex(currentIndex, photoCount);
      if prev != currentIndex {
        isLoading := true;
      }
      currentIndex := prev;
    }

    method HandleZoomIn()
      requires Valid()
      modifies this
      ensures zoom == ZoomIn(old(zoom)) && Valid()
      ensures currentIndex == old(currentIndex) && isLoading == old(isLoading)
    {
      zoom := ZoomIn(zoom);
    }

    method HandleZoomOut()
      requires Valid()
      modifies this
      ensures zoom == ZoomOut(old(zoom)) && Valid()
      ensures currentIndex == old(currentIndex) && isLoading == old(isLoading)
    {
      zoom := ZoomOut(zoom);
    }

    /** The keydown listener: nothing while closed; Escape asks to close, the arrows move,
      * '+'/'=' and '-'/'_' zoom. */
    method HandleKeyDown(isOpen: bool, key: string, photoCount: nat) returns (effect: KeyEffect)
      requires Valid()
      modifies this
      ensures Valid()
      ensures effect == CloseRequested <==> isOpen && key == "Escape"
      ensures !isOpen || key !in {"ArrowLeft", "ArrowRight", "+", "=", "-", "_"} ==>
        currentIndex == old(currentIndex) && zoom == old(zoom) && isLoading == old(isLoading)
      ensures isOpen && key == "ArrowRight" ==>
        currentIndex == NextIndex(old(currentIndex), photoCount) && zoom == old(zoom)
        && isLoading == (old(isLoading) || currentIndex != old(currentIndex))
      ensures isOpen && key == "ArrowLeft" ==>
        currentIndex == PrevIndex(old(currentIndex), photoCount) && zoom == old(zoom)
        && isLoading == (old(isLoading) || currentIndex != old(currentIndex))
      ensures isOpen && key in {"+", "="} ==>
        zoom == ZoomIn(old(zoom)) && currentIndex == old(currentIndex) && isLoading == old(isLoading)
      ensures isOpen && key in {"-", "_"} ==>
        zoom == ZoomOut(old(zoom)) && currentIndex == old(currentIndex) && isLoading == old(isLoading)
    {
      effect := NoEffect;
      if !isOpen {
        return;
      }
      if key == "Escape" {
        effect := CloseRequested;
      } else if key == "ArrowLeft" {
        HandlePrevious(photoCount);
      } else if key == "ArrowRight" {
        HandleNext(photoCount);
      } else if key == "+" || key == "=" {
        HandleZoomIn();
      } else if key == "-" || key == "_" {
        HandleZoomOut();
      }
    }

    /** The viewer renders only while open and on an existing photo. */
    predicate Shown(isOpen: bool, photoCount: nat)
      reads this
    {
      isOpen && 0 <= currentIndex < photoCount
    }
  }
}
