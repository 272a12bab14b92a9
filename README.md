# Deep-zoom image page: annotations and compare mode

This project models the state layer of a browser page that shows
deep-zoom images in an external viewer library. The page does three
things:

- It keeps an in-memory **annotation store**. The store maps each tile
  source (the path of a `.dzi` image descriptor) to the annotations placed
  on that image, in creation order.
- It draws one **marker** (pin) per annotation on the main viewer. Each
  marker has a text editor and an edit/save button.
- It switches between **single mode**, with one main viewer, and
  **compare mode**, with two side-by-side comparison viewers.

The modules:

- `Annotations`: the annotation record and the store as a map. It holds
  the store's lookup and append, and their replay over a history of
  double-clicks.
- `EditToggle`: the marker button's two-state machine. The state is the
  editor's `disabled` flag plus the button glyph (pencil `✎` or floppy
  disk `💾`).
- `Overlay`: two classes. `Marker` is the pin element, whose `disabled` and
  `glyph` fields change in place. `Viewer` stands for a viewer
  instance of the library, reduced to four things: the container it is
  bound to, its tile source, its marker sequence and a destroyed flag.
  The module also holds `AddAnnotationElement`, which builds a marker and
  its record.
- `App`: the page controller, a class. Its fields are the store, the
  `compareMode` flag and the three nullable handles `mainViewer`,
  `viewerLeft` and `viewerRight`. A ghost set lists every viewer the
  controller created. Its methods are the page's functions and event
  handlers. `Wired()` says every handle is empty or holds a live viewer on
  its own container. `Valid()` adds that no live viewer is without a
  handle, so at most one live viewer sits on each container. All handlers
  except the corrected compare toggle need only `Wired()`, which the page
  as written keeps. Every handler except an as-written enter-compare press
  keeps `Valid()` whenever it held before. `ModeInvariant()` is the two-mode invariant.
- `Scenarios`: complete user interactions run against the controller. It
  includes the end-to-end run (annotate, switch images, switch back) and
  the witnesses for the findings below.

The outside world enters as parameters:

- The page's DOM is a `Page` value that says which containers, selectors
  and buttons exist.
- Selector values are method arguments.
- `Date.now()` readings are a `Clock`, a function from read index to
  string.
- The point the library computes from a double-click's screen position
  comes in as image coordinates `x`, `y`.

In three places the code does something other than one might expect.
The model follows the code each time:

- One would expect closing a marker's editor (the floppy-disk click) to
  save its text into the stored record. The code only logs the text.
  `Marker.Toggle` modifies only the marker.
- One would expect the comparison viewers to exist only in compare mode.
  The page creates both at start-up whenever their containers and
  selectors exist, so single mode does not imply empty comparison
  handles. `ModeInvariant` states only what the code keeps.
- One would expect choosing another image to show that image's
  annotations. The selector handler does not re-render them (Findings,
  row 1).

## Model

| member | source | states |
|---|---|---|
| Annotations.Append | script.js:139-145 | the selected key is created if absent and gets exactly one record at its end; earlier records and every other key are unchanged; the key set grows by that key only |
| Annotations.ReplayGet | script.js:142-145 | after any history of double-clicks, a key's sequence is its old sequence followed by exactly the records filed under it, in creation order |
| Annotations.NeverAnnotatedIsEmpty | script.js:108 | starting from the initial store, an image no double-click was filed under reads as the empty sequence, not as an error |
| EditToggle.ShownGlyph | script.js:85-91 | in a consistent state the button's text is `✎` while the editor is disabled and `💾` while it is enabled |
| EditToggle.Toggle | script.js:88-96 | one click flips `disabled`; afterwards the glyph is the save indicator exactly when editing is enabled; a save is logged exactly on the editing-to-disabled transition |
| EditToggle.ToggleTwice | script.js:88-96 | two clicks from a consistent state restore the flag and glyph, and exactly one of the two clicks logs a save |
| EditToggle.ClicksFrom | script.js:88-96 | after n clicks the editor is disabled iff n has the right parity; the glyph still matches the flag; the number of saves is the number of clicks that closed the editor |
| EditToggle.ClicksFromInitial | script.js:82-96 | a new marker returns to its initial state after an even number of clicks, having logged n / 2 saves |
| Overlay.Marker.constructor | script.js:79-85 | a new marker holds its id, point and text; its editor is disabled and its button reads `✎` |
| Overlay.Marker.Toggle | script.js:88-96 | the marker's flag and glyph move as `EditToggle.Toggle` says; the log is `Saved(id, text)` exactly when editing closes, and empty otherwise; the editor's text is untouched; afterwards the button reads `✎` iff the editor is disabled and `💾` otherwise |
| Overlay.AddAnnotationElement | script.js:74-102 | exactly one fresh marker is added at the end of the viewer's markers; it shows the point and text with the editor disabled and the pencil glyph; the returned record carries the arguments unchanged and the marker's id `ann-` + clock reading |
| Overlay.DepictsShowsRendering | script.js:105-113 | markers that depict a sequence of annotations show exactly those points and texts, in order, with editors closed |
| App.Controller.Boot | script.js:22-66 | start-up state: initial store, single mode; a main viewer on the selector's image iff its container exists; comparison viewers on their selectors' images iff both containers and both selectors exist |
| App.Controller.OneViewerPerContainer | script.js:116-119 | in a valid state no two live viewers share a container |
| App.Controller.LoadAnnotations | script.js:105-113 | afterwards the viewer's markers are fresh and depict the stored sequence for the key: same count, points, texts and order, nothing else; the result depends only on the store |
| App.Controller.OnCanvasDoubleClick | script.js:132-147 | from any state whose handles are well bound: a quick double-click appends the record (point, placeholder text `Новая заметка`, id `ann-` + clock reading) to the selected key via `Append`, keeps the earlier markers and adds one fresh marker at the end that carries the record's id and shows it; a non-quick one changes nothing; `Valid()` is kept when it held |
| App.Controller.InitializeMainViewer | script.js:116-152 | any old main viewer is destroyed first; the result is null iff the container is absent; otherwise it is a fresh viewer on the image, holding the handle and showing that image's annotations |
| App.Controller.CreateIndependentViewer | script.js:154-164 | returns null iff the container is absent, else a fresh viewer bound to that container on the image, with no markers |
| App.Controller.LoadImage | script.js:167-173 | from any state whose handles are well bound: an existing main viewer is re-opened in place (same handle, new source); a main viewer is initialized only when there is none |
| App.Controller.OnSelectorChangeAsWritten | script.js:42-50 | the handler as written, from any state whose handles are well bound: ignored in compare mode; otherwise the main viewer is re-pointed in place, and its markers are whatever the library left |
| App.Controller.OnSelectorChange | script.js:42-50 | the corrected handler, from any state whose handles are well bound: ignored in compare mode; otherwise the main viewer is re-pointed in place and depicts the selected image's annotations |
| App.Controller.OnConfirmCompare | script.js:59-64 | from any state whose handles are well bound: each existing comparison viewer is re-opened in place on its selector's image; handles and mode are untouched; the selectors are needed only when some comparison viewer exists |
| App.Controller.ToggleCompareMode | script.js:176-202 | the handler, corrected: the mode flips, the store is unchanged, and the mode invariant and `Valid()` are kept; the new handles are as `EnterCompare` or `LeaveCompare` state, so two toggles restore the mode |
| App.Controller.ToggleCompareModeAsWritten | script.js:176-202 | the handler as written: the mode flips, the store is unchanged, every handle stays empty or a live viewer on its own container and the mode invariant is kept, so presses chain; no created viewer is forgotten; entering destroys the main viewer but leaves the previous comparison viewers alive and without a handle; leaving destroys and nulls both comparison handles and recreates the main viewer showing the selected image's annotations, keeping `Valid()` when it held before |
| App.Controller.EnterCompare | script.js:183-190 | corrected: the main viewer is destroyed and its handle nulled; unlike the code, every comparison viewer still alive is destroyed before its handle is reassigned; fresh comparison viewers are made on `images/andromeda.dzi` and `images/OrionNebula.dzi`, each null iff its container is missing |
| App.Controller.EnterCompareAsWritten | script.js:183-190 | as the code has it, from any state whose handles are well bound: the main viewer is destroyed and nulled, and the comparison handles are overwritten with fresh viewers on the two default images, each null iff its container is missing; no created viewer is forgotten, so an old comparison viewer left alive is still on record |
| App.Controller.LeaveCompare | script.js:191-200 | both comparison viewers are destroyed and their handles nulled; the main viewer is recreated from the selector value passed in and shows that image's annotations; no created viewer is forgotten |
| Scenarios.SelectorChangeShowsWrongMarkers | script.js:42-50 | with the handler as written, annotating Andromeda and then switching to the Orion Nebula and back leaves the wrong number of markers at one of the two switches, whichever overlay behaviour the library has |
| Scenarios.AnnotateAndSwitchImages | script.js:132-145 | with the corrected handler: the store holds the one record placed on Andromeda; the Orion Nebula shows no marker; back on Andromeda exactly that record's marker is shown |
| Scenarios.StartupViewerOutlivesCompare | script.js:53-57 | with the handler as written, the left viewer made at start-up is still alive after entering compare mode, beside a second live viewer on the same container, so the controller is no longer `Valid()` |
| Scenarios.StartupViewerReleasedOnCompare | script.js:188-190 | with the corrected handler, that start-up viewer is destroyed when compare mode is entered |
| Scenarios.RenderTwice | script.js:105-113 | rendering a key's annotations twice in a row shows the same markers as rendering them once |
| Scenarios.CompareRoundTrip | script.js:176-202 | an annotation is placed, then compare mode is entered and left: single mode again, no comparison handles, and the main viewer shows exactly that annotation's marker |
| Scenarios.StartupViewerOutlivesRoundTrip | script.js:176-202 | with the handler as written, a full enter-and-leave round trip ends in single mode with no left handle, while the left viewer made at start-up is still alive |
| Scenarios.AsWrittenSessionGoesOn | script.js:40-63 | with every handler as written on a full page, after compare mode has leaked the start-up viewers, confirm still re-points the comparison viewers, the selector still re-points the recreated main viewer, and a double-click is filed under the image then selected |

## Left out

- DOM construction and styling are not modelled: element creation, class names, showing and hiding sections (`classList`), the image-info text (`imageInfoData`, `innerHTML`) and `focus()`.
- Listener registration is not modelled as code. A handler's `requires` names the page elements without which the handler is never installed (for confirm-compare: both comparison containers and the button).
- Viewer library internals are not modelled: tile loading, rendering, option values, `preventDefaultAction`, and the conversion from screen pixels to image coordinates. The image point comes in as `x`, `y`.
- Overlay.Viewer.Open: the contract allows the library either to keep a viewer's markers or to clear them. What the library really does is its own behaviour, so neither choice is built in.
- Marker ids: `Date.now()` is a `Clock` parameter. Ids are not required to be unique, and the code does not make them so.
- The save log: `console.log` is the returned `SaveEvent`, not output.
- Editing the text: users typing into an enabled editor is browser behaviour. It is not an operation here, so a marker's text stays what it was created with.
- Missing elements that throw: the model assumes the elements exist. This covers the compare buttons and sections when compare mode is toggled. It also covers the comparison selectors when confirm-compare is clicked while some comparison viewer exists: without them the code throws a `TypeError`. With no comparison viewer the click does nothing, and the model allows that case.
- Object-prototype keys: a selector value naming an `Object.prototype` property (`toString`, `constructor`) would make the code read a function instead of an array. The selector's options never do this, and the store is a plain map here.
- Floating point: `x` and `y` are `real`, because the model does no arithmetic on them.
- App.Controller.OnConfirmCompare: like Open, it leaves open whether the re-opened viewers keep their markers.

## Findings

| source | as written | input that shows it | evidently intended | confidence | as-written member | corrected member |
|---|---|---|---|---|---|---|
| script.js:42-50 | a selector change calls `loadImage` only, which re-opens the main viewer and never re-renders annotations | page with only the main viewer; start on `images/andromeda.dzi`; quick double-click; select `images/OrionNebula.dzi`; select `images/andromeda.dzi` again | after a selector change, the main viewer shows exactly the annotations stored for the selected image | not executed; medium | Scenarios.SelectorChangeShowsWrongMarkers | App.Controller.OnSelectorChange |
| script.js:183-190 | entering compare mode overwrites `viewerLeft` and `viewerRight` without destroying the viewers they hold; start-up creates those viewers whenever both containers and selectors exist | page with every container, selector and button; press the enter-compare button once after start-up | every viewer is destroyed before its handle is reassigned, so one live viewer per container | not executed; medium | Scenarios.StartupViewerOutlivesCompare | App.Controller.ToggleCompareMode |
