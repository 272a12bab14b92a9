/**
 * Annotation markers and the viewers they are drawn on. A `Viewer` stands for
 * an instance of the external deep-zoom viewer, reduced to what the page
 * observes of it: the container it is bound to, the tile source it shows, the
 * markers overlaid on it and whether it has been destroyed.
 */
module Overlay {
  import opened Annotations
  import opened EditToggle

  /** Every marker's element id is this prefix followed by a clock reading. */
  const IdPrefix := "ann-"

  /** The diagnostic line logged when a marker's edit is closed. */
  datatype SaveEvent = Saved(id: string, text: string)

  /** An annotation pin: a text editor and an edit/save button at an image point. */
  class Marker {
    const id: string
    const x: real
    const y: real
    /** The text editor's current content. */
    var value: string
    var disabled: bool
    var glyph: Glyph

    function Editor(): State
      reads this
    {
      State(disabled, glyph)
    }

    constructor (id: string, x: real, y: real, text: string)
      ensures this.id == id && this.x == x && this.y == y
      ensures value == text && Editor() == Initial && Symbol(glyph) == "\U{270E}"
    {
      this.id, this.x, this.y := id, x, y;
      value, disabled, glyph := text, true, Pencil;
    }

    /**
     * The button's click handler. The editor moves as `EditToggle.Toggle`
     * says; the save is only logged: the editor's text is not copied anywhere.
     */
    method Toggle() returns (log: seq<SaveEvent>)
      modifies this
      ensures Editor() == EditToggle.Toggle(old(Editor())).next
      ensures log == if EditToggle.Toggle(old(Editor())).saved then [Saved(id, value)] else []
      ensures value == old(value)
      ensures Symbol(glyph) == if disabled then "\U{270E}" else "\U{1F4BE}"
    {
      var isEditing := !disabled;
      disabled := isEditing;
      glyph := if isEditing then Pencil else Floppy;
      log := if isEditing then [Saved(id, value)] else [];
    }
  }

  /** A viewer instance of the external library. */
  class Viewer {
    const container: string
    var source: string
    var overlays: seq<Marker>
    var destroyed: bool

    constructor (container: string, source: string)
      ensures this.container == container && this.source == source
      ensures overlays == [] && !destroyed
    {
      this.container, this.source := container, source;
      overlays, destroyed := [], false;
    }

    /**
     * Re-points the viewer at another tile source. Whether the library keeps
     * or drops the markers on the way is its own business, so both are allowed.
     */
    method Open(source: string)
      modifies this
      ensures this.source == source && destroyed == old(destroyed)
      ensures overlays == old(overlays) || overlays == []
    {
      this.source := source;
    }

    method AddOverlay(m: Marker)
      modifies this
      ensures overlays == old(overlays) + [m]
      ensures source == old(source) && destroyed == old(destroyed)
    {
      overlays := overlays + [m];
    }

    method ClearOverlays()
      modifies this
      ensures overlays == [] && source == old(source) && destroyed == old(destroyed)
    {
      overlays := [];
    }

    method Destroy()
      modifies this
      ensures destroyed && source == old(source) && overlays == old(overlays)
    {
      destroyed := true;
    }
  }

  /** Marker `m` displays annotation `a`: same point, same text, editor closed. */
  predicate Shows(m: Marker, a: Annotation)
    reads m
  {
    m.x == a.x && m.y == a.y && m.value == a.text && m.Editor() == Initial
  }

  /** The markers display the annotations one for one, in order, and nothing else. */
  predicate Depicts(markers: seq<Marker>, annotations: seq<Annotation>)
    reads markers
  {
    |markers| == |annotations| &&
    forall i :: 0 <= i < |markers| ==> Shows(markers[i], annotations[i])
  }

  /** What a marker shows: its point, its text and whether its editor is open. */
  datatype Pin = Pin(x: real, y: real, text: string, editing: bool)

  /** What the markers show, in order. */
  function Snapshot(markers: seq<Marker>): (pins: seq<Pin>)
    reads markers
  {
    seq(|markers|, i requires 0 <= i < |markers| reads markers =>
      Pin(markers[i].x, markers[i].y, markers[i].value, !markers[i].disabled))
  }

  /** What markers depicting `annotations` show: each record's point and text, editor closed. */
  function Rendering(annotations: seq<Annotation>): (pins: seq<Pin>)
  {
    seq(|annotations|, i requires 0 <= i < |annotations| =>
      Pin(annotations[i].x, annotations[i].y, annotations[i].text, false))
  }

  /** Markers that depict a sequence of annotations show exactly its rendering. */
  lemma DepictsShowsRendering(markers: seq<Marker>, annotations: seq<Annotation>)
    requires Depicts(markers, annotations)
    ensures Snapshot(markers) == Rendering(annotations)
  {
  }

  /**
   * Creates one marker for (x, y, text) on `viewer` and returns the record to
   * store: its arguments unchanged and the new marker's id.
   */
  method AddAnnotationElement(viewer: Viewer, x: real, y: real, text: string, stamp: string)
    returns (record: Annotation)
    modifies viewer
    ensures record == Annotation(x, y, text, IdPrefix + stamp)
    ensures |viewer.overlays| == |old(viewer.overlays)| + 1
    ensures viewer.overlays[..|old(viewer.overlays)|] == old(viewer.overlays)
    ensures var m := viewer.overlays[|viewer.overlays| - 1];
      fresh(m) && m.id == record.id && Shows(m, record)
    ensures viewer.source == old(viewer.source) && viewer.destroyed == old(viewer.destroyed)
  {
    var marker := new Marker(IdPrefix + stamp, x, y, text);
    viewer.AddOverlay(marker);
    record := Annotation(x, y, text, marker.id);
  }
}
