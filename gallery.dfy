/**
 * The image gallery (src/components/ImageGallery.tsx): a grid of fifteen
 * stills and a lightbox over them with wrap-around navigation (buttons and
 * swipes) and a zoom factor clamped to [1, 3] in steps of 0.1. Opening and
 * closing the lightbox, and unmounting the gallery, report to the page's
 * media flag.
 */
module ImageGallery {
  import Cyclic
  import MediaSignal
  import opened Wrappers

  datatype GalleryImage = GalleryImage(id: string, image: string, alt: string, aspectRatio: real)

  const GalleryImages: seq<GalleryImage> := [
    GalleryImage("1", "/gallery/1.png", "Smeech", 16.0 / 9.0),
    GalleryImage("2", "/gallery/2.png", "Viktor, Ekko y Heimer dentro del Hexcore", 4.0 / 3.0),
    GalleryImage("3", "/gallery/3.png", "Jinx", 1.0),
    GalleryImage("4", "/gallery/4.png", "Violet", 3.0 / 2.0),
    GalleryImage("5", "/gallery/5.png", "Equipo de asalto de Caitlyn", 16.0 / 9.0),
    GalleryImage("6", "/gallery/6.png", "Jayce", 1.0),
    GalleryImage("7", "/gallery/7.png", "Jinx", 1.0),
    GalleryImage("8", "/gallery/8.png", "Jinx vs Warwick Vander", 1.0),
    GalleryImage("9", "/gallery/9.png", "Ambessa y Caitlyn", 16.0 / 9.0),
    GalleryImage("10", "/gallery/10.png", "Viktor", 4.0 / 3.0),
    GalleryImage("11", "/gallery/11.jpg", "Ambessa", 1.0),
    GalleryImage("12", "/gallery/12.jpg", "Violet vs Warwick Vander", 3.0 / 2.0),
    GalleryImage("13", "/gallery/13.jpg", "Viktor", 16.0 / 9.0),
    GalleryImage("14", "/gallery/14.jpg", "Jinx", 4.0 / 3.0),
    GalleryImage("15", "/gallery/15.jpg", "Vi", 1.0)
  ]

  type ImageIndex = i: nat | i < |GalleryImages|

  const MinZoom: real := 1.0
  const MaxZoom: real := 3.0
  const ZoomStep: real := 0.1

  type Zoom = z: real | MinZoom <= z <= MaxZoom witness MinZoom

  /** `handleZoomIn`: one step larger, but never beyond the maximum. */
  function ZoomIn(z: Zoom): (r: Zoom)
    ensures r == z + ZoomStep || r == MaxZoom
    ensures r <= z + ZoomStep
    ensures z + ZoomStep <= MaxZoom ==> r == z + ZoomStep
  {
    if z + ZoomStep < MaxZoom then z + ZoomStep else MaxZoom
  }

  /** `handleZoomOut`: one step smaller, but never below the minimum. */
  function ZoomOut(z: Zoom): (r: Zoom)
    ensures r == z - ZoomStep || r == MinZoom
    ensures z - ZoomStep <= r
    ensures z - ZoomStep >= MinZoom ==> r == z - ZoomStep
  {
    if z - ZoomStep > MinZoom then z - ZoomStep else MinZoom
  }

  /** At the bounds the zoom buttons do nothing. */
  lemma ZoomSaturates()
    ensures ZoomIn(MaxZoom) == MaxZoom
    ensures ZoomOut(MinZoom) == MinZoom
  {
  }

  /** `k` presses of "zoom in". */
  function ZoomInTimes(z: Zoom, k: nat): Zoom
    decreases k
  {
    if k == 0 then z else ZoomInTimes(ZoomIn(z), k - 1)
  }

  /** After `k` presses of "zoom in" the zoom is `z + k/10`, capped at the maximum. */
  lemma {:induction false} ZoomInTimesCapped(z: Zoom, k: nat)
    ensures ZoomInTimes(z, k) == if z + k as real * ZoomStep < MaxZoom then z + k as real * ZoomStep else MaxZoom
    decreases k
  {
    if k > 0 {
      ZoomInTimesCapped(ZoomIn(z), k - 1);
    }
  }

  /** Twenty presses from the initial zoom reach the maximum; more presses change nothing. */
  lemma TwentyStepsReachMax(extra: nat)
    ensures ZoomInTimes(MinZoom, 20 + extra) == MaxZoom
  {
    ZoomInTimesCapped(MinZoom, 20 + extra);
  }

  /** Grid layout: wide stills span two columns. */
  predicate SpansTwoColumns(img: GalleryImage)
  {
    img.aspectRatio > 1.3
  }

  /** Grid layout: tall stills span two rows. */
  predicate SpansTwoRows(img: GalleryImage)
  {
    img.aspectRatio < 0.8
  }

  /**
   * No tile is both wide and tall; in this catalogue every non-square still
   * spans two columns and none spans two rows.
   */
  lemma GridSpans(img: GalleryImage)
    ensures !(SpansTwoColumns(img) && SpansTwoRows(img))
    ensures forall i: ImageIndex :: !SpansTwoRows(GalleryImages[i])
    ensures forall i: ImageIndex :: SpansTwoColumns(GalleryImages[i]) <==> GalleryImages[i].aspectRatio != 1.0
  {
  }

  /** Fifteen steps forward through the lightbox return to the same still; a step back undoes a step forward. */
  lemma LightboxNavigationCycles(i: ImageIndex)
    ensures Cyclic.SuccTimes(i, |GalleryImages|, 15) == i
    ensures Cyclic.Succ(Cyclic.Pred(i, |GalleryImages|), |GalleryImages|) == i
    ensures Cyclic.Pred(Cyclic.Succ(i, |GalleryImages|), |GalleryImages|) == i
  {
    Cyclic.SuccTimesFullCycle(i, |GalleryImages|);
    Cyclic.SuccPredInverse(i, |GalleryImages|);
  }

  datatype SwipeDirection = SwipedLeft | SwipedRight

  class Gallery {
    var selectedImage: Option<GalleryImage>
    var currentIndex: ImageIndex
    var zoom: Zoom
    /** The page's media flag, reached through the `onImageViewChange` callback. */
    const onChange: MediaSignal.MediaFlag

    /** The lightbox always shows the image at the current index. */
    ghost predicate Valid()
      reads this
    {
      selectedImage.Some? ==> selectedImage.value == GalleryImages[currentIndex]
    }

    predicate IsOpen()
      reads this
    {
      selectedImage.Some?
    }

    constructor (onChange: MediaSignal.MediaFlag)
      ensures Valid()
      ensures selectedImage == None && currentIndex == 0 && zoom == MinZoom
      ensures this.onChange == onChange
    {
      selectedImage := None;
      currentIndex := 0;
      zoom := MinZoom;
      this.onChange := onChange;
    }

    /** A click on the tile at `index`: show that image unzoomed and report `true`. */
    method OpenLightbox(image: GalleryImage, index: ImageIndex)
      requires image == GalleryImages[index]
      requires onChange.Valid()
      modifies this, onChange
      ensures Valid() && onChange.Valid()
      ensures selectedImage == Some(image) && currentIndex == index && zoom == MinZoom
      ensures onChange.isMediaPlaying && onChange.reports == old(onChange.reports) + [true]
    {
      selectedImage := Some(image);
      currentIndex := index;
      zoom := MinZoom;
      onChange.Report(true);
    }

    /** `closeLightbox`: hide the image, reset the zoom, report `false`; the index stays. */
    method CloseLightbox()
      requires Valid() && onChange.Valid()
      modifies this, onChange
      ensures Valid() && onChange.Valid()
      ensures selectedImage == None && zoom == MinZoom && currentIndex == old(currentIndex)
      ensures !onChange.isMediaPlaying && onChange.reports == old(onChange.reports) + [false]
    {
      selectedImage := None;
      zoom := MinZoom;
      onChange.Report(false);
    }

    /** `nextImage`: the following still, wrapping, unzoomed. Nothing is reported. */
    method NextImage()
      requires Valid() && IsOpen()
      modifies this`currentIndex, this`selectedImage, this`zoom
      ensures Valid()
      ensures currentIndex == Cyclic.Succ(old(currentIndex), |GalleryImages|)
      ensures selectedImage == Some(GalleryImages[currentIndex]) && zoom == MinZoom
    {
      var next := Cyclic.Succ(currentIndex, |GalleryImages|);
      currentIndex := next;
      selectedImage := Some(GalleryImages[next]);
      zoom := MinZoom;
    }

    /** `prevImage`: the preceding still, wrapping, unzoomed. Nothing is reported. */
    method PrevImage()
      requires Valid() && IsOpen()
      modifies this`currentIndex, this`selectedImage, this`zoom
      ensures Valid()
      ensures currentIndex == Cyclic.Pred(old(currentIndex), |GalleryImages|)
      ensures selectedImage == Some(GalleryImages[currentIndex]) && zoom == MinZoom
    {
      var prev := Cyclic.Pred(currentIndex, |GalleryImages|);
      currentIndex := prev;
      selectedImage := Some(GalleryImages[prev]);
      zoom := MinZoom;
    }

    method HandleZoomIn()
      requires Valid()
      modifies this`zoom
      ensures Valid()
      ensures zoom == ZoomIn(old(zoom))
    {
      zoom := ZoomIn(zoom);
    }

    method HandleZoomOut()
      requires Valid()
      modifies this`zoom
      ensures Valid()
      ensures zoom == ZoomOut(old(zoom))
    {
      zoom := ZoomOut(zoom);
    }

    /** The swipe handlers on the lightbox: left is "next", right is "previous". */
    method Swipe(direction: SwipeDirection)
      requires Valid() && IsOpen()
      modifies this`currentIndex, this`selectedImage, this`zoom
      ensures Valid()
      ensures direction == SwipedLeft ==> currentIndex == Cyclic.Succ(old(currentIndex), |GalleryImages|)
      ensures direction == SwipedRight ==> currentIndex == Cyclic.Pred(old(currentIndex), |GalleryImages|)
      ensures selectedImage == Some(GalleryImages[currentIndex]) && zoom == MinZoom
    {
      match direction
      case SwipedLeft => NextImage();
      case SwipedRight => PrevImage();
    }

    /** The unmount cleanup: report `false` whatever the lightbox state. */
    method Unmount()
      requires onChange.Valid()
      modifies onChange
      ensures onChange.Valid()
      ensures !onChange.isMediaPlaying && onChange.reports == old(onChange.reports) + [false]
    {
      onChange.Report(false);
    }
  }
}
