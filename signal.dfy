/**
 * The page-level "is some exclusive media playing" state (`isMediaPlaying` in
 * src/app/page.tsx) together with its setter `handleMediaPlayingChange`, which
 * the page hands to the video carousel and to the image gallery as their
 * reporting callback. The setter is a plain overwrite: the flag is the last
 * value reported by anyone, not a count of open surfaces.
 */
module MediaSignal {

  /** The value the flag holds after a history of reports: the last one, or the initial `false`. */
  function LastReport(reports: seq<bool>): bool
  {
    if reports == [] then false else reports[|reports| - 1]
  }

  /**
   * Last write wins: whatever was reported before, the flag takes the newest
   * report. In particular, when two surfaces have both reported `true`, a
   * `false` from either one clears the flag although the other is still open.
   */
  lemma LastWriteWins(earlier: seq<bool>, latest: bool)
    ensures LastReport(earlier + [latest]) == latest
    ensures LastReport([true, true, false]) == false
  {
  }

  class MediaFlag {
    var isMediaPlaying: bool
    /** Every value ever passed to the setter, oldest first. */
    ghost var reports: seq<bool>

    ghost predicate Valid()
      reads this
    {
      isMediaPlaying == LastReport(reports)
    }

    constructor ()
      ensures Valid() && !isMediaPlaying && reports == []
    {
      isMediaPlaying := false;
      reports := [];
    }

    /** `handleMediaPlayingChange(isPlaying)`: overwrite the flag. */
    method Report(isPlaying: bool)
      requires Valid()
      modifies this
      ensures Valid()
      ensures isMediaPlaying == isPlaying
      ensures reports == old(reports) + [isPlaying]
    {
      isMediaPlaying := isPlaying;
      reports := reports + [isPlaying];
    }
  }
}
