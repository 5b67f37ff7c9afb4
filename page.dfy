/**
 * The page (src/app/page.tsx) as the composition of its media parts: one
 * `isMediaPlaying` flag, written by the video carousel and the image gallery
 * through the shared callback and read by the music widget; and the hero
 * video, which is not connected to the flag at all.
 *
 * The music widget's effect on the flag re-runs whenever the flag or the
 * widget's own `isPlaying` changed in a step, so every page step here is the
 * component's handler followed by that effect when one of the two changed.
 */
module Page {
  import MediaSignal
  import VideoCarousel
  import ImageGallery
  import MusicPlayer
  import HeroSection
  import opened Wrappers

  /** The playlist address the page passes to the music widget, in three parts. */
  const PlaylistOrigin: string := "https://open."
  const PlaylistPath: string := "playlist/37i9dQZF1DX3KVUsNUmJc2"
  const PlaylistUrl: string := PlaylistOrigin + MusicPlayer.SpotifyHost + PlaylistPath

  /** The music widget loads the embed form of the page's playlist address. */
  lemma PlaylistEmbedUrl()
    ensures MusicPlayer.EmbedUrl(PlaylistUrl) == PlaylistOrigin + MusicPlayer.SpotifyEmbedHost + PlaylistPath
  {
    var host := MusicPlayer.SpotifyHost;
    var u := PlaylistOrigin + host + PlaylistPath;
    assert |PlaylistOrigin| == 13;
    assert u[13..25] == host;
    forall j | 0 <= j < 13
      ensures !MusicPlayer.OccursAt(u, host, j)
    {
      assert u[j] == PlaylistOrigin[j];
      assert u[j + 1] == (PlaylistOrigin + host)[j + 1];
      assert PlaylistOrigin[j] != 's' || (PlaylistOrigin + host)[j + 1] != 'p';
      assert host[0] == 's' && host[1] == 'p';
      assert u[j..j + |host|] != host by {
        assert u[j..j + |host|][0] == u[j] && u[j..j + |host|][1] == u[j + 1];
      }
    }
    MusicPlayer.IndexOfIsFirst(u, host, 13);
    assert u[..13] == PlaylistOrigin;
    assert u[25..] == PlaylistPath;
  }

  class ArcanePage {
    const flag: MediaSignal.MediaFlag
    const carousel: VideoCarousel.Carousel
    const gallery: ImageGallery.Gallery
    const music: MusicPlayer.Player
    const hero: HeroSection.Hero

    /**
     * The parts are wired as in the page's markup, and the music widget is
     * settled: while other media plays, it is not playing.
     */
    ghost predicate Valid()
      reads this, flag, carousel, gallery, music
    {
      && carousel.onChange == flag && gallery.onChange == flag
      && flag.Valid() && carousel.Valid() && gallery.Valid()
      && music.url == PlaylistUrl
      && (flag.isMediaPlaying ==> !music.isPlaying)
    }

    /** While other media plays, the music widget is paused and hidden. */
    ghost predicate MusicYields()
      reads this, flag, music
    {
      flag.isMediaPlaying ==> !music.isPlaying && !music.isVisible
    }

    /** At most one exclusive surface is open, and the flag says whether one is. */
    ghost predicate FlagTracksSurfaces()
      reads this, flag, carousel, gallery
    {
      && !(carousel.isModalOpen && gallery.IsOpen())
      && flag.isMediaPlaying == (carousel.isModalOpen || gallery.IsOpen())
    }

    constructor ()
      ensures fresh(flag) && fresh(carousel) && fresh(gallery) && fresh(music) && fresh(hero)
      ensures Valid() && MusicYields() && FlagTracksSurfaces()
      ensures !flag.isMediaPlaying && flag.reports == []
      ensures !music.isPlaying && music.isVisible && music.sent == []
      ensures carousel.currentIndex == 0 && !carousel.isModalOpen && carousel.selectedVideo == None && !carousel.inView
      ensures gallery.selectedImage == None && gallery.currentIndex == 0 && gallery.zoom == ImageGallery.MinZoom
      ensures !music.isReady && !music.isExpanded && !music.isScrolled
      ensures hero.isPlaying && hero.isMuted && !hero.hasAudio && !hero.isVideoHidden && hero.videoLog == [HeroSection.Play]
    {
      var f := new MediaSignal.MediaFlag();
      var m := new MusicPlayer.Player(PlaylistUrl);
      m.MediaEffect(f.isMediaPlaying);
      flag := f;
      carousel := new VideoCarousel.Carousel(f);
      gallery := new ImageGallery.Gallery(f);
      music := m;
      hero := new HeroSection.Hero();
    }

    /**
     * The music widget's effect, run after a step when the flag or the
     * widget's `isPlaying` differs from before the step. Running it once
     * settles the widget: a second run would change nothing.
     */
    method SettleMusic(flagBefore: bool, playingBefore: bool)
      requires flagBefore ==> !playingBefore
      modifies music`isVisible, music`isPlaying, music`sent
      ensures flag.isMediaPlaying ==> !music.isPlaying
      ensures !(flag.isMediaPlaying && old(music.isPlaying)) ==>
        music.isPlaying == old(music.isPlaying) && music.sent == old(music.sent)
      ensures flag.isMediaPlaying != flagBefore || old(music.isPlaying) != playingBefore ==>
        && music.isVisible == !flag.isMediaPlaying
        && music.sent == old(music.sent) + (if flag.isMediaPlaying && old(music.isPlaying) then [MusicPlayer.Pause] else [])
      ensures flag.isMediaPlaying == flagBefore && old(music.isPlaying) == playingBefore ==> unchanged(music)
    {
      if flag.isMediaPlaying != flagBefore || music.isPlaying != playingBefore {
        music.MediaEffect(flag.isMediaPlaying);
      }
    }

    /** The carousel's Play button. */
    method PlayCarouselVideo()
      requires Valid()
      modifies carousel, flag, music`isVisible, music`isPlaying, music`sent
      ensures Valid()
      ensures !old(flag.isMediaPlaying) ==> MusicYields()
      ensures carousel.isModalOpen && flag.isMediaPlaying
      ensures carousel.currentIndex == old(carousel.currentIndex) && carousel.inView == old(carousel.inView)
      ensures carousel.selectedVideo == Some(VideoCarousel.Videos[carousel.currentIndex])
      ensures !music.isPlaying
      ensures old(music.isPlaying) ==> music.sent == old(music.sent) + [MusicPlayer.Pause]
      ensures !old(music.isPlaying) ==> music.sent == old(music.sent)
      ensures unchanged(gallery) && unchanged(hero)
      ensures flag.isMediaPlaying == old(flag.isMediaPlaying) ==> music.isVisible == old(music.isVisible)
      ensures old(FlagTracksSurfaces()) && !old(gallery.IsOpen()) ==> FlagTracksSurfaces()
    {
      var flagBefore, playingBefore := flag.isMediaPlaying, music.isPlaying;
      carousel.OpenModal();
      SettleMusic(flagBefore, playingBefore);
    }

    /** The carousel modal's close button. */
    method CloseCarouselVideo()
      requires Valid()
      modifies carousel, flag, music`isVisible, music`isPlaying, music`sent
      ensures Valid()
      ensures !carousel.isModalOpen && carousel.selectedVideo == None && !flag.isMediaPlaying
      ensures carousel.currentIndex == old(carousel.currentIndex) && carousel.inView == old(carousel.inView)
      ensures music.isPlaying == old(music.isPlaying) && music.sent == old(music.sent)
      ensures old(flag.isMediaPlaying) ==> music.isVisible
      ensures unchanged(gallery) && unchanged(hero)
      ensures flag.isMediaPlaying == old(flag.isMediaPlaying) ==> music.isVisible == old(music.isVisible)
      ensures old(FlagTracksSurfaces()) && old(carousel.isModalOpen) ==> FlagTracksSurfaces()
    {
      var flagBefore, playingBefore := flag.isMediaPlaying, music.isPlaying;
      carousel.CloseModal();
      SettleMusic(flagBefore, playingBefore);
    }

    /** A key press reaching the carousel's window listener. */
    method CarouselKeyDown(key: string)
      requires Valid()
      modifies carousel, flag, music`isVisible, music`isPlaying, music`sent
      ensures Valid()
      ensures music.isPlaying == old(music.isPlaying) && music.sent == old(music.sent)
      ensures carousel.inView == old(carousel.inView)
      ensures key == "Escape" && old(carousel.isModalOpen) ==>
        !carousel.isModalOpen && carousel.currentIndex == old(carousel.currentIndex) && !flag.isMediaPlaying
      ensures key == "Escape" && old(carousel.isModalOpen) ==>
        music.isVisible == (old(flag.isMediaPlaying) || old(music.isVisible))
      ensures key == "ArrowLeft" && !old(carousel.isModalOpen) ==>
        carousel.currentIndex == VideoCarousel.PrevIndex(old(carousel.currentIndex)) && unchanged(flag) && unchanged(music)
      ensures key == "ArrowRight" && !old(carousel.isModalOpen) ==>
        carousel.currentIndex == VideoCarousel.NextIndex(old(carousel.currentIndex)) && unchanged(flag) && unchanged(music)
      ensures VideoCarousel.KeyActionFor(key, old(carousel.isModalOpen)) == VideoCarousel.Ignore ==>
        unchanged(carousel) && unchanged(flag) && unchanged(music)
      ensures unchanged(gallery) && unchanged(hero)
      ensures old(FlagTracksSurfaces()) ==> FlagTracksSurfaces()
    {
      var flagBefore, playingBefore := flag.isMediaPlaying, music.isPlaying;
      carousel.KeyDown(key);
      SettleMusic(flagBefore, playingBefore);
    }

    /** A click on the gallery tile at `index`. */
    method OpenImage(index: ImageGallery.ImageIndex)
      requires Valid()
      modifies gallery, flag, music`isVisible, music`isPlaying, music`sent
      ensures Valid()
      ensures !old(flag.isMediaPlaying) ==> MusicYields()
      ensures gallery.IsOpen() && flag.isMediaPlaying
      ensures gallery.selectedImage == Some(ImageGallery.GalleryImages[index])
      ensures gallery.currentIndex == index && gallery.zoom == ImageGallery.MinZoom
      ensures !music.isPlaying
      ensures old(music.isPlaying) ==> music.sent == old(music.sent) + [MusicPlayer.Pause]
      ensures !old(music.isPlaying) ==> music.sent == old(music.sent)
      ensures unchanged(carousel) && unchanged(hero)
      ensures flag.isMediaPlaying == old(flag.isMediaPlaying) ==> music.isVisible == old(music.isVisible)
      ensures old(FlagTracksSurfaces()) && !old(carousel.isModalOpen) ==> FlagTracksSurfaces()
    {
      var flagBefore, playingBefore := flag.isMediaPlaying, music.isPlaying;
      gallery.OpenLightbox(ImageGallery.GalleryImages[index], index);
      SettleMusic(flagBefore, playingBefore);
    }

    /** The lightbox's close button. */
    method CloseImage()
      requires Valid()
      modifies gallery, flag, music`isVisible, music`isPlaying, music`sent
      ensures Valid()
      ensures !gallery.IsOpen() && !flag.isMediaPlaying
      ensures gallery.zoom == ImageGallery.MinZoom && gallery.currentIndex == old(gallery.currentIndex)
      ensures music.isPlaying == old(music.isPlaying) && music.sent == old(music.sent)
      ensures old(flag.isMediaPlaying) ==> music.isVisible
      ensures unchanged(carousel) && unchanged(hero)
      ensures flag.isMediaPlaying == old(flag.isMediaPlaying) ==> music.isVisible == old(music.isVisible)
      ensures old(FlagTracksSurfaces()) && old(gallery.IsOpen()) ==> FlagTracksSurfaces()
    {
      var flagBefore, playingBefore := flag.isMediaPlaying, music.isPlaying;
      gallery.CloseLightbox();
      SettleMusic(flagBefore, playingBefore);
    }

    /**
     * The music widget's play/pause button. While other media plays, a play
     * is immediately undone by the effect: `play` then `pause` are sent.
     */
    method MusicTogglePlay()
      requires Valid()
      modifies music`isPlaying, music`sent, music`isVisible
      ensures Valid()
      ensures flag.isMediaPlaying && music.isReady ==> !music.isPlaying && !music.isVisible
      ensures flag.isMediaPlaying && music.isReady ==> music.sent == old(music.sent) + [MusicPlayer.Play, MusicPlayer.Pause]
      ensures !flag.isMediaPlaying && music.isReady ==> music.isPlaying == !old(music.isPlaying)
      ensures !flag.isMediaPlaying && music.isReady ==>
        music.sent == old(music.sent) + [if music.isPlaying then MusicPlayer.Play else MusicPlayer.Pause]
      ensures !flag.isMediaPlaying && music.isPlaying != old(music.isPlaying) ==> music.isVisible
      ensures !music.isReady ==> unchanged(music)
      ensures unchanged(flag) && unchanged(hero)
    {
      var flagBefore, playingBefore := flag.isMediaPlaying, music.isPlaying;
      music.TogglePlay();
      SettleMusic(flagBefore, playingBefore);
    }

    /** A status message from the embedded player. */
    method MusicMessage(m: MusicPlayer.Message)
      requires Valid()
      modifies music`isPlaying, music`isReady, music`sent, music`isVisible
      ensures Valid()
      ensures flag.isMediaPlaying && m.Object? && m.kind == "playback_update" && m.hasData && !m.isPaused ==>
        !music.isPlaying && !music.isVisible
      ensures music.sent == old(music.sent) +
        (if flag.isMediaPlaying && m.Object? && m.kind == "playback_update" && m.hasData && !m.isPaused
         then [MusicPlayer.Pause] else [])
      ensures !flag.isMediaPlaying && m.Object? && m.kind == "playback_update" && m.hasData ==> music.isPlaying == !m.isPaused
      ensures !flag.isMediaPlaying && music.isPlaying != old(music.isPlaying) ==> music.isVisible
      ensures m.Object? && m.kind == "ready" ==> music.isReady && music.isPlaying == old(music.isPlaying)
      ensures m.Object? && m.kind == "ready" ==> music.isVisible == old(music.isVisible)
      ensures m.Object? && m.kind == "playback_update" && m.hasData ==> music.isReady == old(music.isReady)
      ensures m.Object? && m.kind == "playback_update" && m.hasData && !m.isPaused == old(music.isPlaying) ==>
        music.isVisible == old(music.isVisible)
      ensures !(m.Object? && (m.kind == "ready" || (m.kind == "playback_update" && m.hasData))) ==> unchanged(music)
      ensures unchanged(flag) && unchanged(hero)
    {
      var flagBefore, playingBefore := flag.isMediaPlaying, music.isPlaying;
      music.HandleMessage(m);
      SettleMusic(flagBefore, playingBefore);
    }

    /**
     * The widget's hide/show button. Neither the flag nor `isPlaying` changes,
     * so the effect does not re-run: the widget can be shown while other media
     * plays (it stays paused).
     */
    method MusicToggleVisibility()
      requires Valid()
      modifies music`isVisible
      ensures Valid()
      ensures music.isVisible == !old(music.isVisible)
    {
      music.ToggleVisibility();
    }
  }

  /**
   * Music plays, an image is opened and closed again: the widget is paused and
   * hidden while the image is shown, and afterwards visible but still paused.
   */
  method LightboxInterruptsMusic() returns (pausedDuring: bool, hiddenDuring: bool, playingAfter: bool, visibleAfter: bool, commands: seq<MusicPlayer.Command>)
    ensures pausedDuring && hiddenDuring
    ensures !playingAfter && visibleAfter
    ensures commands == [MusicPlayer.Play, MusicPlayer.Pause]
  {
    var page := new ArcanePage();
    page.MusicMessage(MusicPlayer.Object("ready", false, false));
    page.MusicTogglePlay();
    assert page.music.isPlaying;
    page.OpenImage(3);
    pausedDuring, hiddenDuring := !page.music.isPlaying, !page.music.isVisible;
    page.CloseImage();
    playingAfter, visibleAfter := page.music.isPlaying, page.music.isVisible;
    commands := page.music.sent;
  }

  /**
   * Both exclusive surfaces open (the video modal, then an image), then the
   * video modal closes: the flag is cleared although the image is still shown.
   */
  method OverlappingSurfaces() returns (flagWhileBothOpen: bool, flagAfterOneCloses: bool, imageStillOpen: bool)
    ensures flagWhileBothOpen && !flagAfterOneCloses && imageStillOpen
  {
    var page := new ArcanePage();
    page.PlayCarouselVideo();
    page.OpenImage(0);
    flagWhileBothOpen := page.flag.isMediaPlaying;
    page.CloseCarouselVideo();
    flagAfterOneCloses := page.flag.isMediaPlaying;
    imageStillOpen := page.gallery.IsOpen();
  }
}
