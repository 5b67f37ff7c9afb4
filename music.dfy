/**
 * The floating music widget (src/components/MusicPlayer.tsx) around an
 * embedded playlist player. It keeps whether the embed is ready and playing,
 * whether the widget is shown and expanded, and whether the page has scrolled;
 * it sends `play`/`pause` commands to the embed and learns the playback state
 * from the embed's status messages. While other media plays it is forced to
 * pause and hide, and it never resumes by itself.
 */
module MusicPlayer {
  import opened Wrappers

  // ---------------------------------------------------------------------------
  // The embed URL: `url.replace('spotify.com/', 'spotify.com/embed/')`, which
  // rewrites the first occurrence only.

  /** `pat` occurs in `s` starting at position `i`. */
  predicate OccursAt(s: string, pat: string, i: nat)
  {
    i + |pat| <= |s| && s[i..i + |pat|] == pat
  }

  /** The first position at or after `from` where `pat` occurs, if any. */
  function IndexOfFrom(s: string, pat: string, from: nat): (r: Option<nat>)
    requires from <= |s|
    ensures r.Some? ==> from <= r.value && OccursAt(s, pat, r.value)
    ensures r.Some? ==> forall j :: from <= j < r.value ==> !OccursAt(s, pat, j)
    ensures r.None? ==> forall j :: from <= j ==> !OccursAt(s, pat, j)
    decreases |s| - from
  {
    if OccursAt(s, pat, from) then Some(from)
    else if from == |s| then None
    else IndexOfFrom(s, pat, from + 1)
  }

  /** JavaScript's `indexOf`, with `None` for -1. */
  function IndexOf(s: string, pat: string): Option<nat>
  {
    IndexOfFrom(s, pat, 0)
  }

  /** The contract of `IndexOf` determines it: the first occurrence, or none at all. */
  lemma IndexOfIsFirst(s: string, pat: string, i: nat)
    requires OccursAt(s, pat, i)
    requires forall j :: 0 <= j < i ==> !OccursAt(s, pat, j)
    ensures IndexOf(s, pat) == Some(i)
  {
  }

  /** `s.replace(pat, rep)` for a string pattern: only the first occurrence is replaced. */
  function ReplaceFirst(s: string, pat: string, rep: string): (r: string)
    ensures IndexOf(s, pat).None? ==> r == s
    ensures IndexOf(s, pat).Some? ==>
      var i := IndexOf(s, pat).value;
      && |r| == |s| - |pat| + |rep|
      && r[..i] == s[..i] && OccursAt(r, rep, i) && r[i + |rep|..] == s[i + |pat|..]
  {
    match IndexOf(s, pat)
    case None => s
    case Some(i) => s[..i] + rep + s[i + |pat|..]
  }

  const SpotifyHost: string := "spotify.com/"
  const SpotifyEmbedHost: string := "spotify.com/embed/"

  /**
   * The widget's embed address: with `spotify.com/` in the address, its first
   * occurrence becomes `spotify.com/embed/` (six characters longer); without
   * it, the address is used as given.
   */
  function EmbedUrl(url: string): (r: string)
    ensures IndexOf(url, SpotifyHost).None? ==> r == url
    ensures IndexOf(url, SpotifyHost).Some? ==>
      && |r| == |url| + 6
      && r[..IndexOf(url, SpotifyHost).value] == url[..IndexOf(url, SpotifyHost).value]
      && OccursAt(r, SpotifyEmbedHost, IndexOf(url, SpotifyHost).value)
  {
    ReplaceFirst(url, SpotifyHost, SpotifyEmbedHost)
  }

  /** Where a string that starts with `pat` occurs, `pat` occurs too. */
  lemma PrefixOccurs(s: string, pat: string, rep: string, j: nat)
    requires |pat| <= |rep| && rep[..|pat|] == pat
    requires OccursAt(s, rep, j)
    ensures OccursAt(s, pat, j)
  {
    assert s[j..j + |pat|] == s[j..j + |rep|][..|pat|];
  }

  /**
   * After the first `pat` (at `i`) is replaced by `rep`, which starts with
   * `pat`, a `rep` that starts before `i` would already have been a `pat` there.
   */
  lemma EarlierReplacementWasPattern(s: string, pat: string, rep: string, i: nat, j: nat)
    requires |pat| <= |rep| && rep[..|pat|] == pat
    requires OccursAt(s, pat, i) && j < i
    requires OccursAt(s[..i] + rep + s[i + |pat|..], rep, j)
    ensures OccursAt(s, pat, j)
  {
    var r := s[..i] + rep + s[i + |pat|..];
    PrefixOccurs(r, pat, rep, j);
    forall k | j <= k < j + |pat|
      ensures s[k] == r[k]
    {
      if k >= i {
        calc {
          r[k];
          rep[k - i];
          pat[k - i];
          s[i..i + |pat|][k - i];
          s[k];
        }
      }
    }
    assert s[j..j + |pat|] == r[j..j + |pat|];
  }

  /**
   * Replacing `pat` by a longer `rep` that starts with `pat`, and then `rep`
   * back by `pat`, gives the original string: the rewrite loses nothing.
   */
  lemma {:induction false} ReplaceFirstRoundTrip(s: string, pat: string, rep: string)
    requires |pat| <= |rep| && rep[..|pat|] == pat
    ensures ReplaceFirst(ReplaceFirst(s, pat, rep), rep, pat) == s
  {
    match IndexOf(s, pat)
    case None =>
      forall j | 0 <= j
        ensures !OccursAt(s, rep, j)
      {
        if OccursAt(s, rep, j) {
          PrefixOccurs(s, pat, rep, j);
        }
      }
    case Some(i) =>
      var r := s[..i] + rep + s[i + |pat|..];
      assert OccursAt(r, rep, i) by {
        assert r[i..i + |rep|] == rep;
      }
      forall j | 0 <= j < i
        ensures !OccursAt(r, rep, j)
      {
        if OccursAt(r, rep, j) {
          EarlierReplacementWasPattern(s, pat, rep, i, j);
        }
      }
      IndexOfIsFirst(r, rep, i);
      assert r[..i] == s[..i];
      assert r[i + |rep|..] == s[i + |pat|..];
      assert s == s[..i] + s[i..i + |pat|] + s[i + |pat|..];
  }

  /** The widget's embed address can always be turned back into the playlist address it came from. */
  lemma EmbedUrlLosesNothing(url: string)
    ensures ReplaceFirst(EmbedUrl(url), SpotifyEmbedHost, SpotifyHost) == url
  {
    ReplaceFirstRoundTrip(url, SpotifyHost, SpotifyEmbedHost);
  }

  /** A URL without `spotify.com/` is used unchanged. */
  lemma EmbedUrlWithoutHost(url: string)
    requires forall j :: 0 <= j ==> !OccursAt(url, SpotifyHost, j)
    ensures EmbedUrl(url) == url
  {
  }

  // ---------------------------------------------------------------------------
  // The widget.

  /** Commands posted to the embedded player. */
  datatype Command = Play | Pause

  /**
   * A `message` event as the handler sees it: `event.data` is not an object
   * (or is null), or it is an object with a `type`, a truthy-or-not `data`
   * field, and the truthiness of `data.isPaused`.
   */
  datatype Message =
    | NotAnObject
    | Object(kind: string, hasData: bool, isPaused: bool)

  class Player {
    const url: string
    var isExpanded: bool
    var isPlaying: bool
    var isVisible: bool
    var isScrolled: bool
    var isReady: bool
    /** Every command posted to the embed, oldest first. */
    var sent: seq<Command>

    constructor (url: string)
      ensures this.url == url
      ensures !isReady && !isPlaying && isVisible && !isExpanded && !isScrolled
      ensures sent == []
    {
      this.url := url;
      isExpanded := false;
      isPlaying := false;
      isVisible := true;
      isScrolled := false;
      isReady := false;
      sent := [];
    }

    /**
     * The play/pause button: nothing until the embed is ready; then flip the
     * playing state and send the command that matches the new state.
     */
    method TogglePlay()
      modifies this`isPlaying, this`sent
      ensures !old(isReady) ==> isPlaying == old(isPlaying) && sent == old(sent)
      ensures old(isReady) ==> isPlaying == !old(isPlaying)
      ensures old(isReady) ==> sent == old(sent) + [if isPlaying then Play else Pause]
    {
      if isReady {
        var newPlayingState := !isPlaying;
        isPlaying := newPlayingState;
        sent := sent + [if newPlayingState then Play else Pause];
      }
    }

    method ToggleExpanded()
      modifies this`isExpanded
      ensures isExpanded == !old(isExpanded)
    {
      isExpanded := !isExpanded;
    }

    method ToggleVisibility()
      modifies this`isVisible
      ensures isVisible == !old(isVisible)
    {
      isVisible := !isVisible;
    }

    /** The window scroll listener: the widget re-centres once the page is scrolled past 100 pixels. */
    method Scroll(scrollY: real)
      modifies this`isScrolled
      ensures isScrolled <==> scrollY > 100.0
    {
      isScrolled := scrollY > 100.0;
    }

    /** The window `message` listener. */
    method HandleMessage(m: Message)
      modifies this`isPlaying, this`isReady
      ensures m.Object? && m.kind == "playback_update" && m.hasData ==>
        isPlaying == !m.isPaused && isReady == old(isReady)
      ensures m.Object? && m.kind == "ready" ==> isReady && isPlaying == old(isPlaying)
      ensures !(m.Object? && (m.kind == "ready" || (m.kind == "playback_update" && m.hasData))) ==>
        isPlaying == old(isPlaying) && isReady == old(isReady)
    {
      match m
      case NotAnObject =>
      case Object(kind, hasData, isPaused) =>
        if kind == "playback_update" && hasData {
          isPlaying := !isPaused;
        } else if kind == "ready" {
          isReady := true;
        }
    }

    /**
     * The effect on `isMediaPlaying`: while other media plays, hide and, if
     * playing, pause; otherwise show. Playback is never started here.
     */
    method MediaEffect(isMediaPlaying: bool)
      modifies this`isVisible, this`isPlaying, this`sent
      ensures isVisible == !isMediaPlaying
      ensures isMediaPlaying ==> !isPlaying
      ensures isMediaPlaying && old(isPlaying) ==> sent == old(sent) + [Pause]
      ensures !(isMediaPlaying && old(isPlaying)) ==> sent == old(sent) && isPlaying == old(isPlaying)
    {
      if isMediaPlaying {
        isVisible := false;
        if isPlaying {
          sent := sent + [Pause];
          isPlaying := false;
        }
      } else {
        isVisible := true;
      }
    }
  }
}
