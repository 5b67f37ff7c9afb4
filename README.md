# Arcanetflix media coordination, modelled in Dafny

This project models the interactive core of the Arcanetflix fan site: the
components whose state changes with user input, timers and browser callbacks,
and the page that ties them together.

- **Video carousel** (`VideoCarousel`, carousel.dfy). Six fixed videos with a
  wrap-around index. A modal plays the selected video. Key presses are gated on
  the modal. An autoplay interval starts once the carousel is in view. The page
  scroll is locked while the modal is open.
- **Image gallery** (`ImageGallery`, gallery.dfy). Fifteen stills with a
  lightbox. Navigation wraps around and works with buttons and swipes. Zoom is
  clamped to [1, 3] in steps of 0.1. The grid span depends on the aspect ratio.
- **Music widget** (`MusicPlayer`, music.dfy). It rewrites the playlist address
  into its embed address, sends play/pause commands to the embed and reads its
  status messages. It yields to other media and never resumes by itself.
- **Page** (`Page`, page.dfy). The `isMediaPlaying` flag (`MediaSignal`,
  signal.dfy) is written by the carousel and the gallery through one callback
  and read by the music widget. The module proves how the widget reacts to the
  other components.
- **Hero video** (`HeroSection`, hero.dfy). Play/pause, mute and hide controls,
  a refused autoplay, and the detection of an audio track.
- **Spoiler gate** (`SpoilerWarning`, spoiler.dfy). A first-visit overlay that
  local storage can dismiss for good.
- **Scroll indicator** (`ScrollIndicator`, scroll.dfy). A side navigation that
  highlights the section last reported in view.

Each component is a `class` whose fields are the component's state. Each event
handler is a `method` that updates those fields. The pure parts are functions
with lemmas: the index arithmetic (`Cyclic`, cyclic.dfy), the zoom clamp, the
URL rewrite, the audio decision, the storage update and the intersection fold.

Timers, observers and browser events are explicit steps. Examples are
`Carousel.Tick`, `Gate.TimerFire`, `Indicators.HandleIntersection` and
`Player.HandleMessage`. Whatever the browser answers becomes a parameter: scroll
offsets, window heights, message payloads, the outcome of a play request, the
media capability fields and the random draw. Commands sent to the video element
and to the embedded player are kept in logs (`Hero.videoLog`, `Player.sent`).

Behaviours of the code worth knowing:

- **The flag keeps the last report.** The page's setter overwrites the flag; it
  is not an OR over the open surfaces. `MediaSignal.LastWriteWins` and
  `Page.OverlappingSurfaces` show the consequence.
- **Autoplay keeps running under the modal.** The carousel's autoplay interval
  depends only on `inView`, so it keeps advancing while the modal is open
  (`VideoCarousel.Carousel.Tick`).
- **The carousel reports nothing on unmount.** Its unmount cleanup only releases
  the scroll lock (`VideoCarousel.Carousel.Teardown`). The gallery does report
  `false` when it unmounts.
- **The hero video is not coordinated.** It is not connected to the flag, and
  every page step leaves it unchanged.
- **The widget can be shown while other media plays.** The music widget's
  effect re-runs only when the flag or its own `isPlaying` changes, so hiding
  is not enforced after the user presses its show button while other media
  plays (`Page.ArcanePage.MusicToggleVisibility`).
- **Any playback change shows the widget again.** While no other media plays,
  a change of the widget's `isPlaying` re-runs the effect, which shows the
  widget even if the user had hidden it (`Page.ArcanePage.MusicTogglePlay`,
  `Page.ArcanePage.MusicMessage`).
- **"hero" is never highlighted.** The page renders no element with id `hero`,
  so the indicator never highlights that entry
  (`ScrollIndicator.HeroIsNotObserved`).

## Model

| member | source | states |
|---|---|---|
| Cyclic.Succ | src/components/VideoCarousel.tsx:86-88 | the next index stays in range; it is `i + 1`, or `0` after the last item |
| Cyclic.Pred | src/components/VideoCarousel.tsx:90-92 | the previous index stays in range; it is `i - 1`, or the last item from the first |
| Cyclic.SuccPredInverse | src/components/ImageGallery.tsx:125-142 | a step back undoes a step forward, and a step forward undoes a step back |
| Cyclic.SuccTimes | src/components/VideoCarousel.tsx:121-126 | any number of "next" steps stays a valid index |
| Cyclic.SuccTimesNoWrap | src/components/VideoCarousel.tsx:86-88 | before the end of the list, `k` steps advance by exactly `k` |
| Cyclic.SuccTimesAdd | src/components/VideoCarousel.tsx:121-126 | `a` steps then `b` steps equal `a + b` steps |
| Cyclic.SuccTimesFullCycle | src/components/VideoCarousel.tsx:86-88 | `n` steps over `n` items return to the start |
| MediaSignal.LastWriteWins | src/app/page.tsx:42-46 | the flag holds the newest report whatever came before; `true, true, false` leaves it `false` |
| MediaSignal.LastReport | src/app/page.tsx:42-46 | the flag value after a history of reports: the last one, or `false` before any |
| MediaSignal.MediaFlag.constructor | src/app/page.tsx:42 | the flag starts `false` with no reports |
| MediaSignal.MediaFlag.Report | src/app/page.tsx:44-46 | the setter overwrites the flag with the reported value and keeps the flag equal to the last report |
| VideoCarousel.NextIndex | src/components/VideoCarousel.tsx:86-88 | over six videos, next is `i + 1`, and the last wraps to `0` |
| VideoCarousel.PrevIndex | src/components/VideoCarousel.tsx:90-92 | over six videos, prev is `i - 1`, and `0` wraps to `5` |
| VideoCarousel.NavigationCycles | src/components/VideoCarousel.tsx:86-92 | six "next" steps return to the same video; prev and next undo each other |
| VideoCarousel.KeyActionFor | src/components/VideoCarousel.tsx:95-103 | Escape closes exactly when the modal is open; the arrows navigate exactly when it is closed (each as an iff) |
| VideoCarousel.KeysGatedByModal | src/components/VideoCarousel.tsx:95-103 | with the modal open no key navigates; with it closed no key closes; every other key is ignored |
| VideoCarousel.BodyOverflowFor | src/components/VideoCarousel.tsx:109-114 | the page scroll is locked (`hidden`) exactly while the modal is open, and released (empty) otherwise |
| VideoCarousel.Carousel.constructor | src/components/VideoCarousel.tsx:61-69 | first video, modal closed, nothing selected, not yet in view |
| VideoCarousel.Carousel.Next | src/components/VideoCarousel.tsx:86-88 | the index becomes the next index, with wrap-around |
| VideoCarousel.Carousel.Prev | src/components/VideoCarousel.tsx:90-92 | the index becomes the previous index, with wrap-around |
| VideoCarousel.Carousel.SelectThumbnail | src/components/VideoCarousel.tsx:168-171 | a thumbnail click selects exactly that video |
| VideoCarousel.Carousel.OpenModal | src/components/VideoCarousel.tsx:71-78 | the modal opens on the current video, `true` is reported to the flag, and page scroll is locked |
| VideoCarousel.Carousel.CloseModal | src/components/VideoCarousel.tsx:80-84 | the modal closes, the selection is cleared, `false` is reported, and the scroll lock is released |
| VideoCarousel.Carousel.KeyDown | src/components/VideoCarousel.tsx:94-107 | Escape on an open modal closes it and reports `false`; the arrows on a closed modal navigate without reporting; other keys change nothing |
| VideoCarousel.Carousel.EnterView | src/components/VideoCarousel.tsx:66-69 | the in-view flag is set once and never cleared |
| VideoCarousel.Carousel.Tick | src/components/VideoCarousel.tsx:121-126 | an autoplay tick advances the index only once in view, whether or not the modal is open |
| VideoCarousel.Carousel.Teardown | src/components/VideoCarousel.tsx:116-118 | unmount releases the scroll lock and reports nothing |
| VideoCarousel.PrevThenNextTwice | src/components/VideoCarousel.tsx:86-92 | from the first video, prev shows video 5 (0-based); then next twice shows video 1 |
| ImageGallery.ZoomIn | src/components/ImageGallery.tsx:144-146 | the new zoom is the old one plus a step, or 3; it is never more than a step larger and is exactly a step larger when that fits, so it is `min(z + 0.1, 3)` |
| ImageGallery.ZoomOut | src/components/ImageGallery.tsx:148-150 | the new zoom is the old one minus a step, or 1; it is never more than a step smaller and is exactly a step smaller when that fits, so it is `max(z - 0.1, 1)` |
| ImageGallery.ZoomSaturates | src/components/ImageGallery.tsx:144-150 | at the bounds the zoom buttons change nothing |
| ImageGallery.ZoomInTimes | src/components/ImageGallery.tsx:144-146 | the zoom after `k` clicks of "zoom in" (a specification helper) |
| ImageGallery.ZoomInTimesCapped | src/components/ImageGallery.tsx:144-146 | `k` zoom-ins from `z` give `min(z + k/10, 3)` |
| ImageGallery.TwentyStepsReachMax | src/components/ImageGallery.tsx:144-146 | twenty or more zoom-ins from the initial zoom reach exactly 3 |
| ImageGallery.GridSpans | src/components/ImageGallery.tsx:184-186 | no tile spans two rows and two columns at once; in this catalogue exactly the non-square stills span two columns and none spans two rows |
| ImageGallery.SpansTwoColumns | src/components/ImageGallery.tsx:185 | a tile spans two grid columns when its aspect ratio exceeds 1.3 |
| ImageGallery.SpansTwoRows | src/components/ImageGallery.tsx:186 | a tile spans two grid rows when its aspect ratio is below 0.8 |
| ImageGallery.LightboxNavigationCycles | src/components/ImageGallery.tsx:125-142 | fifteen "next" steps return to the same still; prev and next undo each other |
| ImageGallery.Gallery.constructor | src/components/ImageGallery.tsx:105-107 | lightbox closed, index 0, zoom 1 |
| ImageGallery.Gallery.IsOpen | src/components/ImageGallery.tsx:209 | the lightbox is shown exactly while an image is selected |
| ImageGallery.Gallery.OpenLightbox | src/components/ImageGallery.tsx:109-117 | shows the clicked image at its index, unzoomed, and reports `true` |
| ImageGallery.Gallery.CloseLightbox | src/components/ImageGallery.tsx:119-123 | closes the lightbox, resets the zoom and reports `false`; the index is kept |
| ImageGallery.Gallery.NextImage | src/components/ImageGallery.tsx:125-129 | the next still with wrap-around, shown unzoomed, with no report; reachable only from the open lightbox |
| ImageGallery.Gallery.PrevImage | src/components/ImageGallery.tsx:131-142 | the previous still with wrap-around, shown unzoomed, with no report; reachable only from the open lightbox |
| ImageGallery.Gallery.HandleZoomIn | src/components/ImageGallery.tsx:144-146 | zoom becomes the clamped zoom-in of the old zoom |
| ImageGallery.Gallery.HandleZoomOut | src/components/ImageGallery.tsx:148-150 | zoom becomes the clamped zoom-out of the old zoom |
| ImageGallery.Gallery.Swipe | src/components/ImageGallery.tsx:152-155 | a left swipe is "next" and a right swipe is "previous", on the open lightbox |
| ImageGallery.Gallery.Unmount | src/components/ImageGallery.tsx:158-162 | unmount reports `false` whatever the lightbox state |
| MusicPlayer.OccursAt | src/components/MusicPlayer.tsx:27 | the pattern occurs at a given position (a specification helper for the rewrite) |
| MusicPlayer.IndexOfFrom | src/components/MusicPlayer.tsx:27 | the result is the first occurrence at or after `from`, or `None` when there is none |
| MusicPlayer.IndexOfIsFirst | src/components/MusicPlayer.tsx:27 | an occurrence with none before it is what the search returns |
| MusicPlayer.IndexOf | src/components/MusicPlayer.tsx:27 | the search from the start of the string, as `indexOf` does it |
| MusicPlayer.ReplaceFirst | src/components/MusicPlayer.tsx:27 | the first occurrence alone is replaced and the rest is kept; without an occurrence the string is unchanged |
| MusicPlayer.PrefixOccurs | src/components/MusicPlayer.tsx:27 | wherever the embed host occurs, the plain host occurs too |
| MusicPlayer.EarlierReplacementWasPattern | src/components/MusicPlayer.tsx:27 | after the rewrite, an embed host that starts before the rewritten spot was already a plain host there |
| MusicPlayer.ReplaceFirstRoundTrip | src/components/MusicPlayer.tsx:27 | undoing the first-occurrence rewrite gives back the original string |
| MusicPlayer.EmbedUrlLosesNothing | src/components/MusicPlayer.tsx:27 | every playlist address can be recovered from its embed address |
| MusicPlayer.EmbedUrl | src/components/MusicPlayer.tsx:27 | without `spotify.com/` the address is unchanged; with it, the result is six characters longer, keeps everything before the first occurrence and has `spotify.com/embed/` there |
| MusicPlayer.EmbedUrlWithoutHost | src/components/MusicPlayer.tsx:27 | an address without `spotify.com/` is used unchanged |
| MusicPlayer.Player.constructor | src/components/MusicPlayer.tsx:20-24 | not ready, not playing, shown, collapsed, not scrolled, no command sent |
| MusicPlayer.Player.TogglePlay | src/components/MusicPlayer.tsx:41-47 | does nothing before the embed is ready; once ready it flips playing and sends the command matching the new state |
| MusicPlayer.Player.ToggleExpanded | src/components/MusicPlayer.tsx:49 | flips the expanded state |
| MusicPlayer.Player.ToggleVisibility | src/components/MusicPlayer.tsx:51 | flips the visibility |
| MusicPlayer.Player.Scroll | src/components/MusicPlayer.tsx:53-63 | scrolled exactly when the page is past 100 pixels |
| MusicPlayer.Player.HandleMessage | src/components/MusicPlayer.tsx:65-78 | a playback update with data sets playing to "not paused"; "ready" marks the embed ready; anything else changes nothing |
| MusicPlayer.Player.MediaEffect | src/components/MusicPlayer.tsx:80-90 | with other media playing it hides, and if it was playing it sends one pause and stops; otherwise it shows; it never starts playback |
| HeroSection.DetectAudioOrder | src/components/HeroSection.tsx:68-87 | a defined `mozHasAudio` decides alone; then a defined WebKit byte count decides (positive means audio); only then does the test playback decide: a success gives "audio" iff the element is still playing, and a refused one gives no audio |
| HeroSection.DetectAudio | src/components/HeroSection.tsx:68-86 | a value is set unless all three checks are unavailable; a successful test playback gives "audio" iff the element is not paused afterwards; audio is reported only when the Mozilla flag, a positive WebKit byte count or a test playback that stayed playing says so |
| HeroSection.Hero.constructor | src/components/HeroSection.tsx:28-31 | playing, muted, no audio, shown; the mount effect asks the video to play |
| HeroSection.Hero.HasVideoElement | src/components/HeroSection.tsx:99-122 | the element reference is set exactly while the video is not hidden |
| HeroSection.Hero.ShowsPauseIcon | src/components/HeroSection.tsx:146 | the pause icon shows while playing and not hidden |
| HeroSection.Hero.ShowsMuteControl | src/components/HeroSection.tsx:165 | the mute button is rendered only when the video has audio |
| HeroSection.Hero.AutoplayRejected | src/components/HeroSection.tsx:61-66 | a refused autoplay shows as not playing, with the play icon |
| HeroSection.Hero.TogglePlayPause | src/components/HeroSection.tsx:33-42 | with the video shown it pauses or plays it, flips the state and swaps the icon; while hidden nothing happens |
| HeroSection.Hero.ToggleMute | src/components/HeroSection.tsx:44-49 | with a video element it sets muted to the flipped value and flips the state; while hidden nothing happens |
| HeroSection.Hero.ToggleVideoVisibility | src/components/HeroSection.tsx:51-56 | flips hidden; hiding also marks the video as playing, yet the play icon shows; showing leaves playing as it was |
| HeroSection.Hero.CheckAudio | src/components/HeroSection.tsx:68-87 | sets `hasAudio` to the detected value, or leaves it when nothing is detected, so the mute button appears only after audio was detected; only the test-playback branch mutes and plays the element, and pauses it after a success |
| SpoilerWarning.Storage.constructor | src/components/SpoilerWarning.tsx:15 | the storage holds the given entries |
| SpoilerWarning.StorageAfterAccept | src/components/SpoilerWarning.tsx:23-28 | with the box ticked the key holds `'true'`; without it storage is unchanged; other keys are never touched |
| SpoilerWarning.AlreadyAccepted | src/components/SpoilerWarning.tsx:15-16 | the stored acceptance is present and truthy (a non-empty string) |
| SpoilerWarning.NextVisitShowsGate | src/components/SpoilerWarning.tsx:14-28 | after the delayed step, the next visit skips the gate iff the box was ticked or it was already skipped |
| SpoilerWarning.Gate.constructor | src/components/SpoilerWarning.tsx:10-19 | the gate and its overlay show iff storage holds no truthy acceptance; nothing is fading or pending |
| SpoilerWarning.Gate.Renders | src/components/SpoilerWarning.tsx:31 | the component renders nothing once hidden |
| SpoilerWarning.Gate.ShowsOverlay | src/components/SpoilerWarning.tsx:35 | the overlay shows while rendered and not fading out |
| SpoilerWarning.Gate.SetDontShowAgain | src/components/SpoilerWarning.tsx:122-125 | the box holds the value it was set to |
| SpoilerWarning.Gate.Accept | src/components/SpoilerWarning.tsx:21-35 | the overlay goes at once while the component stays rendered; a delayed step is queued with the box's current value; storage is unchanged so far |
| SpoilerWarning.Gate.TimerFire | src/components/SpoilerWarning.tsx:23-28 | the oldest delayed step hides the gate and writes storage only if its captured box value was ticked |
| SpoilerWarning.FirstVisitThenReload | src/components/SpoilerWarning.tsx:10-31 | the gate shows on first visit and while fading, not after the delay; acceptance is stored iff the box was ticked; the reload shows the gate iff it was not |
| ScrollIndicator.SectionIdsDistinct | src/components/ScrollIndicator.tsx:197-203 | the listed section ids are pairwise distinct |
| ScrollIndicator.ObservedIds | src/components/ScrollIndicator.tsx:244-249 | an id is observed iff it is listed and its element exists |
| ScrollIndicator.HeroIsNotObserved | src/app/page.tsx:59-93 | on this page exactly characters, clips, merch and gallery are observed; hero is not |
| ScrollIndicator.BatchWithoutIntersectionKeeps | src/components/ScrollIndicator.tsx:211-220 | a batch without intersecting entries keeps the active section; leaving never clears it |
| ScrollIndicator.AfterBatch | src/components/ScrollIndicator.tsx:211-220 | after a batch the active section is the one before or the id of some intersecting entry of the batch |
| ScrollIndicator.BatchPicksLastIntersecting | src/components/ScrollIndicator.tsx:211-220 | a batch ends on the last intersecting entry's id |
| ScrollIndicator.BatchStaysObserved | src/components/ScrollIndicator.tsx:211-220 | the active section is always empty or an observed id |
| ScrollIndicator.AtMostOneActive | src/components/ScrollIndicator.tsx:297-302 | at most one list item is highlighted |
| ScrollIndicator.IsActive | src/components/ScrollIndicator.tsx:302 | an item is highlighted when its id is the active section |
| ScrollIndicator.ScrolledFarEnough | src/components/ScrollIndicator.tsx:226 | the indicator is visible past 30% of the window height |
| ScrollIndicator.ScrollThreshold | src/components/ScrollIndicator.tsx:226 | scrolling further down never hides the indicator, and at the top of the page it is hidden |
| ScrollIndicator.StoneNumber | src/components/ScrollIndicator.tsx:176 | the stone picture number is 1, 2 or 3 for any draw in [0, 1) |
| ScrollIndicator.Indicators.constructor | src/components/ScrollIndicator.tsx:206-249 | nothing active, expanded, visible iff past 30% of the window height, observing the listed sections that exist |
| ScrollIndicator.Indicators.ShowsNav | src/components/ScrollIndicator.tsx:272 | the navigation is rendered while visible and expanded |
| ScrollIndicator.Indicators.ShowsToggle | src/components/ScrollIndicator.tsx:309 | the toggle button is rendered while visible |
| ScrollIndicator.Indicators.HandleIntersection | src/components/ScrollIndicator.tsx:211-220 | the loop over the batch ends on the fold of the batch, and the active section stays empty or observed |
| ScrollIndicator.Indicators.HandleScroll | src/components/ScrollIndicator.tsx:222-229 | visible, and so the toggle shown, exactly when scrolled past 30% of the window height; the navigation shows when also expanded |
| ScrollIndicator.Indicators.ToggleIndicator | src/components/ScrollIndicator.tsx:323 | flips whether the navigation is expanded; the toggle stays; the navigation shows iff the toggle does and it was collapsed |
| Page.PlaylistEmbedUrl | src/app/page.tsx:54-57 | the widget loads `https://open.spotify.com/embed/playlist/37i9dQZF1DX3KVUsNUmJc2` |
| Page.ArcanePage.constructor | src/app/page.tsx:41-57 | flag false and matching the surfaces; carousel on video 0, closed, not in view; gallery closed on image 0 at zoom 1; music not ready, paused, shown, collapsed, with no command sent; hero playing, muted, without audio and shown, with one `play` requested |
| Page.ArcanePage.SettleMusic | src/components/MusicPlayer.tsx:80-90 | the widget's effect runs only when the flag or its playing state changed; afterwards the widget is not playing while other media plays |
| Page.ArcanePage.PlayCarouselVideo | src/app/page.tsx:73 | the modal opens on the current video (index and in-view kept) and the flag is set; the music is paused, with exactly one pause sent if it played and nothing sent otherwise; it is hidden when the flag was clear and keeps its visibility when the flag was already set; gallery and hero are untouched |
| Page.ArcanePage.CloseCarouselVideo | src/app/page.tsx:73 | the modal closes with no video selected (index and in-view kept) and the flag clears; the music does not resume and sends nothing; it is shown again when the flag had been set and keeps its visibility when the flag was already clear |
| Page.ArcanePage.CarouselKeyDown | src/app/page.tsx:73 | Escape on an open modal closes it, keeps the index and clears the flag, and the widget is shown if the flag had been set and keeps its visibility otherwise; the arrows on a closed modal give the previous or next index and leave flag and music alone; any other key changes nothing; keys never start or stop the music |
| Page.ArcanePage.OpenImage | src/app/page.tsx:91 | the lightbox shows the clicked image at its index, unzoomed, and the flag is set; the music is paused, with exactly one pause sent if it played and nothing sent otherwise; it is hidden when the flag was clear and keeps its visibility when the flag was already set; carousel and hero are untouched |
| Page.ArcanePage.CloseImage | src/app/page.tsx:91 | the lightbox closes, the zoom resets and the index is kept; the flag clears; the music does not resume and sends nothing; it is shown again when the flag had been set and keeps its visibility when the flag was already clear |
| Page.ArcanePage.MusicTogglePlay | src/components/MusicPlayer.tsx:41-47 | with other media playing, play is undone at once (`play` then `pause` sent, hidden); otherwise the button flips playback and the widget shows itself again; before the embed is ready nothing changes |
| Page.ArcanePage.MusicMessage | src/components/MusicPlayer.tsx:65-90 | embed updates apply and "ready" marks readiness; other messages change nothing; with other media playing, a reported start is paused again and the widget hidden, the only case in which a command (one pause) is sent; with the flag clear, a playback change shows the widget; "ready" and an update repeating the current playback keep the widget's visibility |
| Page.ArcanePage.MusicToggleVisibility | src/components/MusicPlayer.tsx:51 | the button flips visibility even while other media plays, and the music stays paused |
| Page.LightboxInterruptsMusic | src/app/page.tsx:54-91 | music playing, then an image opened and closed: paused and hidden during; shown but still paused after; exactly `play`, `pause` sent |
| Page.OverlappingSurfaces | src/app/page.tsx:44-46 | with both surfaces open, closing the video modal clears the flag although the image is still shown |

## Left out

- Rendering, animation and layout are not modelled: motion components, CSS classes, icons and labels. Only the state that decides what is shown is modelled, as predicates such as `ShowsPauseIcon`, `ShowsOverlay` and `ShowsNav`.
- The carousel's `showControls` hover state, the external "open on YouTube" link and its reference to its own container are not modelled, because they do not affect the modelled state.
- The music widget's `isMounted` first-render guard is not modelled; it only delays the first render.
- The music widget's `postMessage` transport is not modelled. The `contentWindow` presence check is assumed to succeed, so every command is appended to `Player.sent`.
- Timer durations (5000 ms autoplay, 500 ms fade), the 100 ms scroll throttle and its cancellation are not modelled. Each timer firing or handler call is a separate step.
- Listener registration and removal are not modelled, nor are the scroll-library event hooks of the indicator.
- IntersectionObserver geometry (root margin and thresholds) is not modelled. A batch of entries is a parameter, and entries must name observed elements.
- Local storage failures are not modelled: storage is an always-available string map.
- `StoneNumber`: `Math.random()` becomes a parameter in [0, 1), so the distribution of the draw is not modelled.
- `ImageGallery.ZoomIn`, `ImageGallery.ZoomOut`: zoom is exact real arithmetic, so floating-point drift over repeated 0.1 steps is not modelled.
- `HeroSection.Hero.CheckAudio`: the listener is attached once, to the element present at mount. The model allows a call at any time; after hiding and showing the video again, the source's new element has no listener.
- `MusicPlayer.Player.Scroll`: the call the mount effect makes is not part of the constructor; it is a first `Scroll` step.
- `Page.ArcanePage`: the spoiler gate, the scroll indicator (mounted from the layout) and the character and merchandise sections are not fields of the page. They share no state with the media flag, and each is modelled on its own.
- `Page.ArcanePage.OpenImage`: the lightbox opens on the catalogue image at the clicked index, the only call the grid makes. The gallery's own `OpenLightbox` requires that pairing.
- `VideoCarousel.Carousel.OpenModal`: the modal opens on the current video, the only one the Play button passes; the source's `openModal` takes the video as an argument.
- React's batching of state updates is modelled as one atomic step per handler, followed by at most one run of the music widget's effect.
