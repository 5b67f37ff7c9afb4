/**
 * The video carousel (src/components/VideoCarousel.tsx): an index over six
 * fixed videos, a modal that plays the selected one, keyboard handling gated on
 * the modal, an autoplay interval that starts once the carousel has scrolled
 * into view, and the page-scroll lock while the modal is open. Opening and
 * closing the modal report to the page's media flag.
 */
module VideoCarousel {
  import Cyclic
  import MediaSignal
  import opened Wrappers

  datatype Video = Video(id: int, title: string, thumbnail: string, videoSrc: string)

  const Videos: seq<Video> := [
    Video(1, "THE LINE | VIDEOCLIP", "/thumbnails/1.jpg", "https://www.youtube.com/embed/E2Rj2gQAyPA"),
    Video(2, "PAINT THE TOWN BLUE", "/thumbnails/2.png", "https://www.youtube.com/embed/pl2K9rvsS74"),
    Video(3, "COME PLAY", "/thumbnails/3.jpg", "https://www.youtube.com/embed/3jf6xOg6e7Y"),
    Video(4, "ARCANE: TEMPORADA 2 | TRÁILER OFICIAL", "/thumbnails/4.jpg", "https://www.youtube.com/embed/hsffPST-x1k"),
    Video(5, "ARCANE: TRÁILER \"COME PLAY\"", "/thumbnails/5.jpg", "https://www.youtube.com/embed/5Hy6M3Lk08c"),
    Video(6, "AVANCE DE ARCANE EN LOS JUEGOS: COME PLAY", "/thumbnails/6.jpg", "https://www.youtube.com/embed/rR5vyzjGwmk")
  ]

  type VideoIndex = i: nat | i < |Videos|

  /** `next`: the following video, wrapping from the last to the first. */
  function NextIndex(i: VideoIndex): (r: VideoIndex)
    ensures i < 5 ==> r == i + 1
    ensures i == 5 ==> r == 0
  {
    Cyclic.Succ(i, |Videos|)
  }

  /** `prev`: the preceding video, wrapping from the first to the last. */
  function PrevIndex(i: VideoIndex): (r: VideoIndex)
    ensures i > 0 ==> r == i - 1
    ensures i == 0 ==> r == 5
  {
    Cyclic.Pred(i, |Videos|)
  }

  /** Six presses of "next" come back to the same video; "prev" then "next" is the identity. */
  lemma NavigationCycles(i: VideoIndex)
    ensures Cyclic.SuccTimes(i, |Videos|, 6) == i
    ensures NextIndex(PrevIndex(i)) == i && PrevIndex(NextIndex(i)) == i
  {
    Cyclic.SuccTimesFullCycle(i, |Videos|);
    Cyclic.SuccPredInverse(i, |Videos|);
  }

  /** What a key press does, given whether the modal is open. */
  datatype KeyAction = CloseModal | GoPrev | GoNext | Ignore

  function KeyActionFor(key: string, modalOpen: bool): (a: KeyAction)
    // Escape closes only an open modal; the arrows navigate only while it is closed.
    ensures a == CloseModal <==> key == "Escape" && modalOpen
    ensures a == GoPrev <==> key == "ArrowLeft" && !modalOpen
    ensures a == GoNext <==> key == "ArrowRight" && !modalOpen
  {
    if key == "Escape" && modalOpen then CloseModal
    else if key == "ArrowLeft" && !modalOpen then GoPrev
    else if key == "ArrowRight" && !modalOpen then GoNext
    else Ignore
  }

  /** While the modal is open no key moves the carousel; while it is closed no key closes anything. */
  lemma KeysGatedByModal(key: string, modalOpen: bool)
    ensures modalOpen ==> KeyActionFor(key, modalOpen) in {CloseModal, Ignore}
    ensures !modalOpen ==> KeyActionFor(key, modalOpen) != CloseModal
    ensures key !in {"Escape", "ArrowLeft", "ArrowRight"} ==> KeyActionFor(key, modalOpen) == Ignore
  {
  }

  /** `document.body.style.overflow` as the scroll-lock effect sets it. */
  function BodyOverflowFor(modalOpen: bool): string
  {
    if modalOpen then "hidden" else ""
  }

  class Carousel {
    var currentIndex: VideoIndex
    var isModalOpen: bool
    var selectedVideo: Option<Video>
    /** `inView` of the intersection hook; with `triggerOnce` it never reverts. */
    var inView: bool
    /** The shared `document.body.style.overflow` that the scroll-lock effect writes. */
    var bodyOverflow: string
    /** The page's media flag, reached through the `onVideoPlayingChange` callback. */
    const onChange: MediaSignal.MediaFlag

    ghost predicate Valid()
      reads this
    {
      && (isModalOpen <==> selectedVideo.Some?)
      && bodyOverflow == BodyOverflowFor(isModalOpen)
    }

    constructor (onChange: MediaSignal.MediaFlag)
      ensures Valid()
      ensures currentIndex == 0 && !isModalOpen && selectedVideo == None && !inView
      ensures this.onChange == onChange
    {
      currentIndex := 0;
      isModalOpen := false;
      selectedVideo := None;
      inView := false;
      bodyOverflow := "";
      this.onChange := onChange;
    }

    method Next()
      requires Valid()
      modifies this`currentIndex
      ensures Valid()
      ensures currentIndex == NextIndex(old(currentIndex))
    {
      currentIndex := Cyclic.Succ(currentIndex, |Videos|);
    }

    method Prev()
      requires Valid()
      modifies this`currentIndex
      ensures Valid()
      ensures currentIndex == PrevIndex(old(currentIndex))
    {
      currentIndex := Cyclic.Pred(currentIndex, |Videos|);
    }

    /** A thumbnail click selects exactly that thumbnail's video. */
    method SelectThumbnail(index: VideoIndex)
      requires Valid()
      modifies this`currentIndex
      ensures Valid()
      ensures currentIndex == index
    {
      currentIndex := index;
    }

    /**
     * The Play button: open the modal on the current video, report `true`, and
     * (scroll-lock effect) lock the page scroll.
     */
    method OpenModal()
      requires Valid() && onChange.Valid()
      modifies this, onChange
      ensures Valid() && onChange.Valid()
      ensures isModalOpen && selectedVideo == Some(Videos[currentIndex])
      ensures currentIndex == old(currentIndex) && inView == old(inView)
      ensures onChange.isMediaPlaying && onChange.reports == old(onChange.reports) + [true]
      ensures bodyOverflow == "hidden"
    {
      selectedVideo := Some(Videos[currentIndex]);
      isModalOpen := true;
      onChange.Report(true);
      bodyOverflow := BodyOverflowFor(isModalOpen);
    }

    /** `closeModal`: close, forget the video, report `false`, release the scroll lock. */
    method CloseModal()
      requires Valid() && onChange.Valid()
      modifies this, onChange
      ensures Valid() && onChange.Valid()
      ensures !isModalOpen && selectedVideo == None
      ensures currentIndex == old(currentIndex) && inView == old(inView)
      ensures !onChange.isMediaPlaying && onChange.reports == old(onChange.reports) + [false]
      ensures bodyOverflow == ""
    {
      isModalOpen := false;
      selectedVideo := None;
      onChange.Report(false);
      bodyOverflow := BodyOverflowFor(isModalOpen);
    }

    /** The window `keydown` listener. */
    method KeyDown(key: string)
      requires Valid() && onChange.Valid()
      modifies this, onChange
      ensures Valid() && onChange.Valid()
      ensures inView == old(inView)
      ensures key == "Escape" && old(isModalOpen) ==>
        !isModalOpen && currentIndex == old(currentIndex) && onChange.reports == old(onChange.reports) + [false]
      ensures key == "ArrowLeft" && !old(isModalOpen) ==>
        currentIndex == PrevIndex(old(currentIndex)) && unchanged(onChange) && !isModalOpen
      ensures key == "ArrowRight" && !old(isModalOpen) ==>
        currentIndex == NextIndex(old(currentIndex)) && unchanged(onChange) && !isModalOpen
      ensures KeyActionFor(key, old(isModalOpen)) == Ignore ==> unchanged(this) && unchanged(onChange)
    {
      match KeyActionFor(key, isModalOpen)
      case CloseModal => CloseModal();
      case GoPrev => Prev();
      case GoNext => Next();
      case Ignore =>
    }

    /** The carousel has scrolled into view (reported once). */
    method EnterView()
      requires Valid()
      modifies this`inView
      ensures Valid() && inView
    {
      inView := true;
    }

    /**
     * One firing of the autoplay interval. The interval exists only once the
     * carousel is in view, and it keeps running while the modal is open.
     */
    method Tick()
      requires Valid()
      modifies this`currentIndex
      ensures Valid()
      ensures inView ==> currentIndex == NextIndex(old(currentIndex))
      ensures !inView ==> currentIndex == old(currentIndex)
    {
      if inView {
        Next();
      }
    }

    /** Unmount: the scroll-lock cleanup releases the lock; nothing is reported. */
    method Teardown()
      modifies this`bodyOverflow
      ensures bodyOverflow == ""
    {
      bodyOverflow := "";
    }
  }

  /**
   * Starting on the first video, "previous" shows the last one, and "next"
   * twice then shows the second one.
   */
  method PrevThenNextTwice() returns (afterPrev: nat, afterNexts: nat)
    ensures afterPrev == 5 && afterNexts == 1
  {
    var flag := new MediaSignal.MediaFlag();
    var carousel := new Carousel(flag);
    carousel.Prev();
    afterPrev := carousel.currentIndex;
    carousel.Next();
    carousel.Next();
    afterNexts := carousel.currentIndex;
  }
}
