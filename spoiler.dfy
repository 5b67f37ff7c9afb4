/**
 * The first-visit spoiler gate (src/components/SpoilerWarning.tsx). On mount
 * it reads the `spoilerWarningAccepted` entry of the browser's local storage
 * and stays hidden when that entry is truthy. Accepting (with the close
 * button or the main button) starts a fade-out; a delayed callback then hides
 * the gate and, only if "do not show again" was ticked when the user accepted,
 * stores `'true'` under that key.
 */
module SpoilerWarning {

  const AcceptedKey: string := "spoilerWarningAccepted"
  const AcceptedValue: string := "true"

  /** `localStorage`: always available here, string keys to string values. */
  class Storage {
    var items: map<string, string>

    constructor (items: map<string, string>)
      ensures this.items == items
    {
      this.items := items;
    }
  }

  /** The mount check: the stored entry is present and a non-empty (truthy) string. */
  predicate AlreadyAccepted(items: map<string, string>)
  {
    AcceptedKey in items && items[AcceptedKey] != ""
  }

  /** The storage after the delayed accept step, given the box as it was when the user accepted. */
  function StorageAfterAccept(items: map<string, string>, dontShowAgain: bool): (r: map<string, string>)
    ensures dontShowAgain ==> AlreadyAccepted(r) && r[AcceptedKey] == AcceptedValue
    ensures !dontShowAgain ==> r == items
    ensures forall k :: k != AcceptedKey ==> (k in r <==> k in items)
    ensures forall k :: k != AcceptedKey && k in items ==> r[k] == items[k]
  {
    if dontShowAgain then items[AcceptedKey := AcceptedValue] else items
  }

  /**
   * The gate comes back on the next visit exactly when it would have come
   * back before, unless the box was ticked; with the box ticked it never
   * comes back.
   */
  lemma NextVisitShowsGate(items: map<string, string>, dontShowAgain: bool)
    ensures AlreadyAccepted(StorageAfterAccept(items, dontShowAgain)) <==> dontShowAgain || AlreadyAccepted(items)
  {
  }

  class Gate {
    var isVisible: bool
    var isFadingOut: bool
    var dontShowAgain: bool
    /**
     * Delayed accept callbacks not yet run, oldest first; each holds the value
     * of `dontShowAgain` that its closure captured.
     */
    var pending: seq<bool>
    const storage: Storage

    /** Whether the component renders anything. */
    predicate Renders()
      reads this
    {
      isVisible
    }

    /** Whether the overlay with its buttons and checkbox is on screen. */
    predicate ShowsOverlay()
      reads this
    {
      isVisible && !isFadingOut
    }

    /** Mount: the initial state, then the stored-flag check. */
    constructor (storage: Storage)
      ensures this.storage == storage
      ensures isVisible <==> !AlreadyAccepted(storage.items)
      ensures ShowsOverlay() <==> !AlreadyAccepted(storage.items)
      ensures !isFadingOut && !dontShowAgain && pending == []
    {
      this.storage := storage;
      isFadingOut := false;
      dontShowAgain := false;
      pending := [];
      isVisible := !AlreadyAccepted(storage.items);
    }

    /** The "do not show again" checkbox. */
    method SetDontShowAgain(checked: bool)
      modifies this`dontShowAgain
      ensures dontShowAgain == checked
    {
      dontShowAgain := checked;
    }

    /**
     * `handleAccept`, bound to both the close button and the main button:
     * start fading at once and schedule the delayed step. The gate stays
     * visible until that step runs.
     */
    method Accept()
      modifies this`isFadingOut, this`pending
      ensures isFadingOut && !ShowsOverlay()
      ensures Renders() == old(Renders())
      ensures pending == old(pending) + [dontShowAgain]
      ensures isVisible == old(isVisible) && storage.items == old(storage.items)
    {
      isFadingOut := true;
      pending := pending + [dontShowAgain];
    }

    /** The delayed step of the oldest pending accept: hide, and persist only if the box was ticked. */
    method TimerFire()
      requires pending != []
      modifies this`isVisible, this`pending, storage
      ensures !isVisible && !Renders()
      ensures pending == old(pending)[1..]
      ensures storage.items == StorageAfterAccept(old(storage.items), old(pending)[0])
    {
      var remember := pending[0];
      pending := pending[1..];
      isVisible := false;
      if remember {
        storage.items := storage.items[AcceptedKey := AcceptedValue];
      }
    }
  }

  /**
   * A first visit: the gate shows; the user ticks the box or not, accepts,
   * and the delayed step runs; then the page is loaded again over the same
   * storage. Returns what each stage showed and what was stored.
   */
  method FirstVisitThenReload(remember: bool) returns (shownFirst: bool, shownWhileFading: bool, shownAfterDelay: bool, stored: bool, shownOnReload: bool)
    ensures shownFirst && shownWhileFading && !shownAfterDelay
    ensures stored <==> remember
    ensures shownOnReload <==> !remember
  {
    var storage := new Storage(map[]);
    var gate := new Gate(storage);
    shownFirst := gate.Renders();
    gate.SetDontShowAgain(remember);
    gate.Accept();
    shownWhileFading := gate.Renders();
    gate.TimerFire();
    shownAfterDelay := gate.Renders();
    stored := AcceptedKey in storage.items && storage.items[AcceptedKey] == AcceptedValue;
    var reloaded := new Gate(storage);
    shownOnReload := reloaded.Renders();
  }
}
