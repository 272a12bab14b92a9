/**
 * The page controller: the annotation store, the compare-mode flag and the
 * three viewer handles, with the event handlers that change them.
 */
module App {
  import opened Annotations
  import opened Overlay

  /** Ids of the three viewer containers. */
  const MainContainer := "openseadragon-viewer"
  const LeftContainer := "viewer-left"
  const RightContainer := "viewer-right"

  /** The text of an annotation placed by double-click. */
  const Placeholder := "Новая заметка"

  /** Which elements the page has; fixed for the page's lifetime. */
  datatype Page = Page(
    main: bool,             // the main viewer's container
    left: bool,             // the left comparison container
    right: bool,            // the right comparison container
    compareSelectors: bool, // both comparison selectors
    confirmButton: bool)    // the confirm-compare button

  /** The clock readings one event sees, in the order it reads them. */
  type Clock = nat -> string

  class Controller {
    const page: Page
    var store: Store
    var compareMode: bool
    var mainViewer: Viewer?
    var viewerLeft: Viewer?
    var viewerRight: Viewer?
    /** Every viewer this controller ever created. */
    ghost var created: set<Viewer>

    /** Does the page have a container with this id? */
    predicate Present(id: string)
    {
      (id == MainContainer && page.main) ||
      (id == LeftContainer && page.left) ||
      (id == RightContainer && page.right)
    }

    /** A handle is empty or a live viewer of ours bound to container `id`. */
    ghost predicate Bound(v: Viewer?, id: string)
      reads this, created
    {
      v != null ==> v in created && v.container == id && Present(id) && !v.destroyed
    }

    /** No viewer is left alive without a handle that owns it. */
    ghost predicate NoLeak()
      reads this, created
    {
      forall v :: v in created && !v.destroyed ==> v == mainViewer || v == viewerLeft || v == viewerRight
    }

    /** Each handle is empty or a live viewer of ours on its own container. */
    ghost predicate Wired()
      reads this, created
    {
      Bound(mainViewer, MainContainer) && Bound(viewerLeft, LeftContainer) &&
      Bound(viewerRight, RightContainer)
    }

    ghost predicate Valid()
      reads this, created
    {
      Wired() && NoLeak()
    }

    /**
     * The two modes: in compare mode there is no main viewer and a comparison
     * viewer for each comparison container; in single mode there is a main
     * viewer exactly when its container exists.
     */
    ghost predicate ModeInvariant()
      reads this`compareMode, this`mainViewer, this`viewerLeft, this`viewerRight
    {
      (compareMode ==> mainViewer == null &&
                       (viewerLeft != null <==> page.left) &&
                       (viewerRight != null <==> page.right)) &&
      (!compareMode ==> (mainViewer != null <==> page.main))
    }

    /** At most one live viewer per container. */
    lemma OneViewerPerContainer(v: Viewer, w: Viewer)
      requires Valid()
      requires v in created && w in created && !v.destroyed && !w.destroyed
      requires v.container == w.container
      ensures v == w
    {
    }

    /**
     * The page's start-up: not in compare mode, the main viewer created from
     * the image selector's value, and the two comparison viewers created from
     * their selectors when both comparison containers and both selectors exist.
     */
    constructor Boot(page: Page, selected: string, leftSelected: string, rightSelected: string,
                     clock: Clock)
      ensures this.page == page && store == InitialStore && !compareMode
      ensures Valid() && ModeInvariant()
      ensures mainViewer != null ==> fresh(mainViewer) && mainViewer.source == selected &&
                                     mainViewer.overlays == []
      ensures (viewerLeft != null) == (viewerRight != null) == (page.left && page.right && page.compareSelectors)
      ensures viewerLeft != null ==> fresh(viewerLeft) && viewerLeft.source == leftSelected
      ensures viewerRight != null ==> fresh(viewerRight) && viewerRight.source == rightSelected
    {
      this.page := page;
      store := InitialStore;
      compareMode := false;
      mainViewer, viewerLeft, viewerRight := null, null, null;
      created := {};
      new;
      if page.main {
        mainViewer := InitializeMainViewer(selected, clock);
        assert Get(InitialStore, selected) == [] by {
          assert forall k :: k in InitialStore ==> InitialStore[k] == [];
        }
      }
      if page.left && page.right && page.compareSelectors {
        viewerLeft := CreateIndependentViewer(LeftContainer, leftSelected);
        viewerRight := CreateIndependentViewer(RightContainer, rightSelected);
      }
    }

    /**
     * Clears the viewer's markers and adds one fresh marker per annotation
     * stored for `key`, in stored order. The outcome depends only on the store,
     * so a second call with the store unchanged yields the same markers.
     */
    method LoadAnnotations(viewer: Viewer, key: string, clock: Clock)
      modifies viewer
      ensures Depicts(viewer.overlays, Get(store, key))
      ensures forall m :: m in viewer.overlays ==> fresh(m)
      ensures viewer.source == old(viewer.source) && viewer.destroyed == old(viewer.destroyed)
    {
      viewer.ClearOverlays();
      var annotations := Get(store, key);
      var i := 0;
      while i < |annotations|
        invariant 0 <= i <= |annotations|
        invariant Depicts(viewer.overlays, annotations[..i])
        invariant forall m :: m in viewer.overlays ==> fresh(m)
        invariant viewer.source == old(viewer.source) && viewer.destroyed == old(viewer.destroyed)
      {
        var a := annotations[i];
        ghost var before := viewer.overlays;
        var _ := AddAnnotationElement(viewer, a.x, a.y, a.text, clock(i));
        assert viewer.overlays == before + [viewer.overlays[|before|]];
        i := i + 1;
      }
    }

    /**
     * The double-click handler installed on the main viewer. A quick
     * double-click at image point (x, y) adds one marker and appends one
     * record to the store under the selected image; any other double-click
     * changes nothing.
     */
    method OnCanvasDoubleClick(quick: bool, x: real, y: real, selected: string, clock: Clock)
      requires Wired() && mainViewer != null
      modifies this`store, mainViewer
      ensures Wired() && (old(Valid()) ==> Valid())
      ensures mainViewer.source == old(mainViewer.source)
      ensures !quick ==> store == old(store) && mainViewer.overlays == old(mainViewer.overlays)
      ensures quick ==> var record := Annotation(x, y, Placeholder, IdPrefix + clock(0));
        store == Append(old(store), selected, record) &&
        |mainViewer.overlays| == |old(mainViewer.overlays)| + 1 &&
        mainViewer.overlays[..|old(mainViewer.overlays)|] == old(mainViewer.overlays) &&
        var m := mainViewer.overlays[|mainViewer.overlays| - 1];
        fresh(m) && m.id == record.id && Shows(m, record)
    {
      if quick {
        var record := AddAnnotationElement(mainViewer, x, y, Placeholder, clock(0));
        if selected !in store {
          store := store[selected := []];
        }
        store := store[selected := store[selected] + [record]];
      }
    }

    /**
     * Destroys any main viewer, then, when the main container exists, creates
     * a new one on `dziFile` showing that image's annotations. With no
     * container it returns null and leaves the (destroyed) handle for the
     * caller to overwrite.
     */
    method InitializeMainViewer(dziFile: string, clock: Clock) returns (r: Viewer?)
      requires Wired()
      modifies this`mainViewer, this`created, mainViewer
      ensures old(mainViewer) != null ==> old(mainViewer).destroyed
      ensures r == null <==> !page.main
      ensures r == null ==> mainViewer == old(mainViewer) && created == old(created)
      ensures r != null ==> fresh(r) && mainViewer == r && created == old(created) + {r} &&
                            r.source == dziFile && Depicts(r.overlays, Get(store, dziFile)) &&
                            Wired() && (old(Valid()) ==> Valid())
    {
      if mainViewer != null {
        mainViewer.Destroy();
      }
      if !page.main {
        return null;
      }
      var v := new Viewer(MainContainer, dziFile);
      created := created + {v};
      mainViewer := v;
      LoadAnnotations(v, dziFile, clock);
      r := v;
    }

    /** Creates a comparison viewer on `dziFile`, or returns null when container `id` is absent. */
    method CreateIndependentViewer(id: string, dziFile: string) returns (r: Viewer?)
      modifies this`created
      ensures r == null <==> !Present(id)
      ensures r != null ==> fresh(r) && r.container == id && r.source == dziFile &&
                            r.overlays == [] && !r.destroyed
      ensures created == old(created) + (if r == null then {} else {r})
    {
      if !Present(id) {
        return null;
      }
      r := new Viewer(id, dziFile);
      created := created + {r};
    }

    /** Re-opens an existing main viewer in place; creates one only when there is none. */
    method LoadImage(dziFile: string, clock: Clock)
      requires Wired()
      modifies this`mainViewer, this`created, mainViewer
      ensures Wired() && (old(Valid()) ==> Valid())
      ensures old(mainViewer) != null ==>
        mainViewer == old(mainViewer) && mainViewer.source == dziFile &&
        (mainViewer.overlays == old(mainViewer.overlays) || mainViewer.overlays == [])
      ensures old(mainViewer) == null ==> (mainViewer != null <==> page.main)
      ensures old(mainViewer) == null && mainViewer != null ==>
        fresh(mainViewer) && mainViewer.source == dziFile &&
        Depicts(mainViewer.overlays, Get(store, dziFile))
    {
      if mainViewer != null {
        mainViewer.Open(dziFile);
      } else {
        mainViewer := InitializeMainViewer(dziFile, clock);
      }
    }

    /**
     * The image selector's change handler as the page has it: outside compare
     * mode the main viewer is pointed at the new image, and nothing else; in
     * compare mode the change is ignored.
     */
    method OnSelectorChangeAsWritten(value: string, clock: Clock)
      requires Wired() && ModeInvariant() && page.main
      modifies this`mainViewer, this`created, mainViewer
      ensures Wired() && ModeInvariant() && (old(Valid()) ==> Valid())
      ensures old(compareMode) ==> mainViewer == old(mainViewer) == null && created == old(created)
      ensures !compareMode ==>
        mainViewer == old(mainViewer) && mainViewer.source == value &&
        (mainViewer.overlays == old(mainViewer.overlays) || mainViewer.overlays == [])
    {
      if !compareMode {
        LoadImage(value, clock);
      }
    }

    /**
     * The image selector's change handler, corrected: outside compare mode the
     * main viewer is pointed at the new image and then shows exactly the
     * annotations stored for it.
     */
    method OnSelectorChange(value: string, clock: Clock)
      requires Wired() && ModeInvariant() && page.main
      modifies this`mainViewer, this`created, mainViewer
      ensures Wired() && ModeInvariant() && (old(Valid()) ==> Valid())
      ensures old(compareMode) ==> mainViewer == old(mainViewer) == null && created == old(created)
      ensures !compareMode ==>
        mainViewer == old(mainViewer) && mainViewer.source == value &&
        Depicts(mainViewer.overlays, Get(store, value))
    {
      if !compareMode {
        LoadImage(value, clock);
        LoadAnnotations(mainViewer, value, clock);
      }
    }

    /**
     * The confirm-compare handler: re-points each comparison viewer in place
     * on its selector's value. The selectors are read only for a viewer that
     * exists, so with no comparison viewer a click does nothing even when the
     * selectors are missing.
     */
    method OnConfirmCompare(leftValue: string, rightValue: string)
      requires Wired() && page.left && page.right && page.confirmButton
      requires viewerLeft != null || viewerRight != null ==> page.compareSelectors
      modifies viewerLeft, viewerRight
      ensures Wired() && (old(Valid()) ==> Valid())
      ensures viewerLeft != null ==>
        viewerLeft.source == leftValue &&
        (viewerLeft.overlays == old(viewerLeft.overlays) || viewerLeft.overlays == [])
      ensures viewerRight != null ==>
        viewerRight.source == rightValue &&
        (viewerRight.overlays == old(viewerRight.overlays) || viewerRight.overlays == [])
    {
      if viewerLeft != null {
        viewerLeft.Open(leftValue);
      }
      if viewerRight != null {
        viewerRight.Open(rightValue);
      }
    }

    /**
     * The compare button's handler, corrected: `EnterCompare` when the flag
     * turns on, `LeaveCompare` with the selector's value, read before either
     * runs, when it turns off.
     */
    method ToggleCompareMode(selected: string, clock: Clock)
      requires Valid() && ModeInvariant() && page.main
      modifies this, mainViewer, viewerLeft, viewerRight
      ensures Valid() && ModeInvariant()
      ensures compareMode == !old(compareMode) && store == old(store)
      ensures compareMode ==>
        (old(mainViewer) != null ==> old(mainViewer).destroyed) &&
        (old(viewerLeft) != null ==> old(viewerLeft).destroyed) &&
        (old(viewerRight) != null ==> old(viewerRight).destroyed) &&
        (viewerLeft != null ==> fresh(viewerLeft) && viewerLeft.source == Andromeda &&
                                viewerLeft.overlays == []) &&
        (viewerRight != null ==> fresh(viewerRight) && viewerRight.source == OrionNebula &&
                                 viewerRight.overlays == [])
      ensures !compareMode ==>
        (old(viewerLeft) != null ==> old(viewerLeft).destroyed) &&
        (old(viewerRight) != null ==> old(viewerRight).destroyed) &&
        viewerLeft == null && viewerRight == null &&
        fresh(mainViewer) && mainViewer.source == selected &&
        Depicts(mainViewer.overlays, Get(store, selected))
    {
      compareMode := !compareMode;
      if compareMode {
        EnterCompare();
      } else {
        LeaveCompare(selected, clock);
      }
    }

    /**
     * The compare button's handler as the page has it: `EnterCompareAsWritten`
     * when the flag turns on, `LeaveCompare` when it turns off. Both keep the
     * handles wired and the mode invariant, so presses can follow one another;
     * but entering does not keep `NoLeak`: comparison viewers that were alive
     * before, such as those created at start-up, stay alive with no handle.
     */
    method ToggleCompareModeAsWritten(selected: string, clock: Clock)
      requires Wired() && ModeInvariant() && page.main
      modifies this, mainViewer, viewerLeft, viewerRight
      ensures Wired() && ModeInvariant() && old(created) <= created
      ensures compareMode == !old(compareMode) && store == old(store)
      ensures compareMode ==>
        (old(mainViewer) != null ==> old(mainViewer).destroyed) &&
        (old(viewerLeft) != null ==> !old(viewerLeft).destroyed && old(viewerLeft) != viewerLeft) &&
        (old(viewerRight) != null ==> !old(viewerRight).destroyed && old(viewerRight) != viewerRight) &&
        (viewerLeft != null ==> fresh(viewerLeft) && viewerLeft.container == LeftContainer &&
                                !viewerLeft.destroyed && viewerLeft.source == Andromeda) &&
        (viewerRight != null ==> fresh(viewerRight) && viewerRight.container == RightContainer &&
                                 !viewerRight.destroyed && viewerRight.source == OrionNebula)
      ensures !compareMode ==>
        (old(Valid()) ==> Valid()) &&
        (old(viewerLeft) != null ==> old(viewerLeft).destroyed) &&
        (old(viewerRight) != null ==> old(viewerRight).destroyed) &&
        viewerLeft == null && viewerRight == null &&
        fresh(mainViewer) && mainViewer.source == selected &&
        Depicts(mainViewer.overlays, Get(store, selected))
    {
      compareMode := !compareMode;
      if compareMode {
        EnterCompareAsWritten();
      } else {
        LeaveCompare(selected, clock);
      }
    }

    /**
     * Entering compare mode, corrected: the main viewer is destroyed and its
     * handle emptied, every comparison viewer still alive is destroyed, and
     * fresh comparison viewers are created on the two default images.
     */
    method EnterCompare()
      requires Valid()
      modifies this`mainViewer, this`viewerLeft, this`viewerRight, this`created
      modifies mainViewer, viewerLeft, viewerRight
      ensures Valid() && mainViewer == null
      ensures viewerLeft != null <==> page.left
      ensures viewerRight != null <==> page.right
      ensures old(mainViewer) != null ==> old(mainViewer).destroyed
      ensures old(viewerLeft) != null ==> old(viewerLeft).destroyed
      ensures old(viewerRight) != null ==> old(viewerRight).destroyed
      ensures viewerLeft != null ==>
        fresh(viewerLeft) && viewerLeft.source == Andromeda && viewerLeft.overlays == []
      ensures viewerRight != null ==>
        fresh(viewerRight) && viewerRight.source == OrionNebula && viewerRight.overlays == []
    {
      if mainViewer != null {
        mainViewer.Destroy();
        mainViewer := null;
      }
      if viewerLeft != null {
        viewerLeft.Destroy();
      }
      if viewerRight != null {
        viewerRight.Destroy();
      }
      viewerLeft := CreateIndependentViewer(LeftContainer, Andromeda);
      viewerRight := CreateIndependentViewer(RightContainer, OrionNebula);
    }

    /**
     * Entering compare mode as the page has it: the main viewer is destroyed
     * and its handle emptied, and the comparison handles are overwritten with
     * fresh viewers on the two default images; the viewers they held before
     * are left as they were.
     */
    method EnterCompareAsWritten()
      requires Wired()
      modifies this`mainViewer, this`viewerLeft, this`viewerRight, this`created, mainViewer
      ensures Wired() && mainViewer == null && old(created) <= created
      ensures viewerLeft != null <==> page.left
      ensures viewerRight != null <==> page.right
      ensures old(mainViewer) != null ==> old(mainViewer).destroyed
      ensures viewerLeft != null ==>
        fresh(viewerLeft) && Bound(viewerLeft, LeftContainer) && viewerLeft.source == Andromeda
      ensures viewerRight != null ==>
        fresh(viewerRight) && Bound(viewerRight, RightContainer) && viewerRight.source == OrionNebula
    {
      if mainViewer != null {
        mainViewer.Destroy();
        mainViewer := null;
      }
      viewerLeft := CreateIndependentViewer(LeftContainer, Andromeda);
      viewerRight := CreateIndependentViewer(RightContainer, OrionNebula);
    }

    /**
     * Leaving compare mode: both comparison viewers are destroyed and their
     * handles emptied, then the main viewer is created again on `selected`.
     */
    method LeaveCompare(selected: string, clock: Clock)
      requires Wired() && page.main
      modifies this`mainViewer, this`viewerLeft, this`viewerRight, this`created
      modifies mainViewer, viewerLeft, viewerRight
      ensures Wired() && (old(Valid()) ==> Valid()) && old(created) <= created
      ensures viewerLeft == null && viewerRight == null
      ensures old(viewerLeft) != null ==> old(viewerLeft).destroyed
      ensures old(viewerRight) != null ==> old(viewerRight).destroyed
      ensures old(mainViewer) != null ==> old(mainViewer).destroyed
      ensures fresh(mainViewer) && mainViewer.source == selected
      ensures Depicts(mainViewer.overlays, Get(store, selected))
    {
      if viewerLeft != null {
        viewerLeft.Destroy();
        viewerLeft := null;
      }
      if viewerRight != null {
        viewerRight.Destroy();
        viewerRight := null;
      }
      mainViewer := InitializeMainViewer(selected, clock);
    }
  }
}
