/**
 * Runs of the controller through whole user interactions, stated as methods
 * whose results are what the page shows at the interesting points.
 */
module Scenarios {
  import opened Annotations
  import opened Overlay
  import opened App

  /** The clock reading every event in these runs sees. */
  const Stamp := "1700000000000"

  function FixedClock(): (clock: Clock)
  {
    (i: nat) => Stamp
  }

  /** A page with the main viewer only. */
  const MainOnly := Page(true, false, false, false, false)

  /** A page with every container, selector and button. */
  const FullPage := Page(true, true, true, true, true)

  /**
   * Annotate Andromeda, then switch the selector to the Orion Nebula and
   * back, with the selector handler as the page has it. Whatever the viewer
   * library does with markers when it opens an image, at one of the two
   * switches the number of markers shown differs from the number stored for
   * the image now selected.
   */
  method SelectorChangeShowsWrongMarkers()
    returns (shownAtOrion: nat, storedAtOrion: nat, shownBack: nat, storedBack: nat)
    ensures shownAtOrion != storedAtOrion || shownBack != storedBack
  {
    var clock := FixedClock();
    var c := new Controller.Boot(MainOnly, Andromeda, Andromeda, OrionNebula, clock);
    c.OnCanvasDoubleClick(true, 120.5, 80.0, Andromeda, clock);
    c.OnSelectorChangeAsWritten(OrionNebula, clock);
    shownAtOrion, storedAtOrion := |c.mainViewer.overlays|, |Get(c.store, OrionNebula)|;
    c.OnSelectorChangeAsWritten(Andromeda, clock);
    shownBack, storedBack := |c.mainViewer.overlays|, |Get(c.store, Andromeda)|;
  }

  /**
   * The same run with the corrected selector handler: the Andromeda store
   * holds the one record placed, the Orion Nebula shows no marker, and back
   * on Andromeda exactly that record's marker is shown.
   */
  method AnnotateAndSwitchImages()
    returns (stored: seq<Annotation>, shownAtOrion: seq<Pin>, shownBack: seq<Pin>)
    ensures stored == [Annotation(120.5, 80.0, Placeholder, IdPrefix + Stamp)]
    ensures shownAtOrion == []
    ensures shownBack == [Pin(120.5, 80.0, Placeholder, false)]
  {
    var clock := FixedClock();
    var c := new Controller.Boot(MainOnly, Andromeda, Andromeda, OrionNebula, clock);
    c.OnCanvasDoubleClick(true, 120.5, 80.0, Andromeda, clock);
    stored := Get(c.store, Andromeda);
    c.OnSelectorChange(OrionNebula, clock);
    DepictsShowsRendering(c.mainViewer.overlays, Get(c.store, OrionNebula));
    shownAtOrion := Snapshot(c.mainViewer.overlays);
    c.OnSelectorChange(Andromeda, clock);
    DepictsShowsRendering(c.mainViewer.overlays, Get(c.store, Andromeda));
    shownBack := Snapshot(c.mainViewer.overlays);
  }

  /**
   * On a page with every element, start-up creates a left comparison viewer;
   * entering compare mode as the page has it binds a second one to the same
   * container and leaves the first alive.
   */
  method StartupViewerOutlivesCompare() returns (stale: Viewer, current: Viewer, ghost valid: bool)
    ensures stale != current
    ensures stale.container == LeftContainer && current.container == LeftContainer
    ensures !stale.destroyed && !current.destroyed
    ensures !valid
  {
    var clock := FixedClock();
    var c := new Controller.Boot(FullPage, Andromeda, Andromeda, OrionNebula, clock);
    stale := c.viewerLeft;
    c.ToggleCompareModeAsWritten(Andromeda, clock);
    current := c.viewerLeft;
    valid := c.Valid();
  }

  /** The same run with the corrected handler: the start-up viewer is destroyed first. */
  method StartupViewerReleasedOnCompare() returns (stale: Viewer, current: Viewer)
    ensures stale != current
    ensures stale.container == LeftContainer && current.container == LeftContainer
    ensures stale.destroyed && !current.destroyed
  {
    var clock := FixedClock();
    var c := new Controller.Boot(FullPage, Andromeda, Andromeda, OrionNebula, clock);
    stale := c.viewerLeft;
    c.ToggleCompareMode(Andromeda, clock);
    current := c.viewerLeft;
  }

  /**
   * Rendering the annotations of `key` twice in a row shows the same markers
   * as rendering them once.
   */
  method RenderTwice(c: Controller, viewer: Viewer, key: string, clock: Clock)
    returns (once: seq<Pin>, twice: seq<Pin>)
    modifies viewer
    ensures once == twice == Rendering(Get(c.store, key))
  {
    c.LoadAnnotations(viewer, key, clock);
    DepictsShowsRendering(viewer.overlays, Get(c.store, key));
    once := Snapshot(viewer.overlays);
    c.LoadAnnotations(viewer, key, clock);
    DepictsShowsRendering(viewer.overlays, Get(c.store, key));
    twice := Snapshot(viewer.overlays);
  }

  /**
   * An annotation placed, then compare mode entered and left again: back in
   * single mode with no comparison handles, and the main viewer shows that
   * annotation's marker again.
   */
  method CompareRoundTrip(selected: string)
    returns (mode: bool, left: Viewer?, right: Viewer?, shown: seq<Pin>)
    ensures !mode && left == null && right == null
    ensures shown == [Pin(120.5, 80.0, Placeholder, false)]
  {
    var clock := FixedClock();
    var c := new Controller.Boot(FullPage, selected, Andromeda, OrionNebula, clock);
    c.OnCanvasDoubleClick(true, 120.5, 80.0, selected, clock);
    c.ToggleCompareMode(selected, clock);
    c.ToggleCompareMode(selected, clock);
    mode, left, right := c.compareMode, c.viewerLeft, c.viewerRight;
    DepictsShowsRendering(c.mainViewer.overlays, Get(c.store, selected));
    shown := Snapshot(c.mainViewer.overlays);
  }

  /**
   * A whole session with the compare handler as the page has it: entering
   * and leaving compare mode works, but the left viewer created at start-up
   * is still alive at the end, with no handle left that could destroy it.
   */
  method StartupViewerOutlivesRoundTrip() returns (stale: Viewer, mode: bool, left: Viewer?)
    ensures !mode && left == null
    ensures stale.container == LeftContainer && !stale.destroyed
  {
    var clock := FixedClock();
    var c := new Controller.Boot(FullPage, Andromeda, Andromeda, OrionNebula, clock);
    stale := c.viewerLeft;
    c.ToggleCompareModeAsWritten(Andromeda, clock);
    c.ToggleCompareModeAsWritten(Andromeda, clock);
    mode, left := c.compareMode, c.viewerLeft;
  }

  /**
   * A whole session on a full page with the handlers as the page has them.
   * The first compare press leaves the start-up comparison viewers alive,
   * and the page goes on working: confirm re-points the new comparison
   * viewers, leaving compare mode gives a main viewer again, the selector
   * re-points it, and a double-click files its record under the image now
   * selected.
   */
  method AsWrittenSessionGoesOn()
    returns (leftShows: string, rightShows: string, mainShows: string, stored: seq<Annotation>)
    ensures leftShows == RedAndromeda && rightShows == GiantBubble
    ensures mainShows == OrionNebula
    ensures stored == [Annotation(120.5, 80.0, Placeholder, IdPrefix + Stamp)]
  {
    var clock := FixedClock();
    var c := new Controller.Boot(FullPage, Andromeda, Andromeda, OrionNebula, clock);
    c.ToggleCompareModeAsWritten(Andromeda, clock);
    c.OnConfirmCompare(RedAndromeda, GiantBubble);
    leftShows, rightShows := c.viewerLeft.source, c.viewerRight.source;
    c.ToggleCompareModeAsWritten(Andromeda, clock);
    c.OnSelectorChangeAsWritten(OrionNebula, clock);
    mainShows := c.mainViewer.source;
    c.OnCanvasDoubleClick(true, 120.5, 80.0, OrionNebula, clock);
    stored := Get(c.store, OrionNebula);
  }
}
