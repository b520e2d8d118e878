# Map-drawing info controls, modelled in Dafny

This project models the core of the map "info controls" of
mapbox-gl-draw-line-distance-mode. Three overlay controls sit on top of a
drawing widget, one each for a single line, a single point, and two lines.
They show the selected feature's name and length. They let the user rename
it. They also offer line-editing shortcuts: duplicate a line, extend it,
insert a midpoint vertex, and join two lines.

The model has five modules, one per component of `src/controls.js`:

- `Features` (`features.dfy`): the data model. This covers positions,
  geometries, features, the feature-state record, the name lookup of
  `getFeatureName`, and the id-less copy made when duplicating.
- `Classify` (`classify.dfy`): the three `isSupportedFeatures`
  predicates, with lemmas on what they accept between them.
- `LineEdit` (`line_edit.dfy`): the line-editing logic as pure functions.
  This covers vertex lookup, splice and midpoint insertion, the
  extend-from-last-vertex hint, the head/tail choice for a join and the
  joined line.
- `Display` (`display.dfy`): the unit configuration, the unit
  abbreviations and the three display texts.
- `Controls` (`controls.dfy`): the `InfoControl` class. It holds the
  control's display state (the features it holds, container visibility,
  text, edit-form visibility, name input). Its methods are the event
  handlers, the edit form and the line-editing actions. It also has two
  small classes, `Draw` and `MapView`. They stand in for the drawing
  widget (feature store, mode, selection, selected vertices) and for the
  map (feature-state store, fired selection-change events).

The source has three subclasses of a shared base. The model uses one
class whose `kind` constant selects the variant. A method that exists on
only one subclass requires that kind.

The source calls three foreign primitives: turf `length`, turf `midpoint`
and `toLocaleString`. They are the fields of `Features.Geo`, passed in at
construction. They are left uninterpreted because every property here
only compares, sums or copies their results. The id the widget assigns to
a duplicated line is a parameter of `OnClickDuplicateFeature`.

In these places the model follows what the code does:

- `clearFeatures` hides the container and empties the text, but it keeps
  the features it last set.
- A unit that turf `length` knows but the abbreviation table lacks (such
  as "meters", "feet" or "nauticalmiles") is accepted. Its abbreviation
  prints as "undefined", because the table lookup misses. A unit spelled
  like an `Object.prototype` member is the exception (see "Left out").
- An empty stored name shows as "Untitled", because `''` is falsy.
- `findPointInLine` visits only the vertex's own components. A vertex
  therefore matches any point it is a prefix of (`LineEdit.Matches`).
- A vertex that is not found is not treated as "append at the end". The
  source reads `coordinates[-1]` there and has no defined result.
- The widget's selection is a list of ids looked up in its store, so a
  line stored again by an insertion is seen selected in its new form, and
  a deleted line leaves the selection.
- `onClickJoinLines` changes the very object held in `_features`. It then
  fires a selection change that reaches the control's own listener, so the
  two-line control ends up hidden.

In two places the class follows the corrected behaviour instead of the code
as written (both are listed under "Findings"):

- The constructor falls back to "kilometers" when no unit is configured.
  As written, the base constructor raises a ReferenceError first
  (src/controls.js:21).
- `SetFeatures` (and so `Showing`) fills the name input on the point
  control as on the line control. As written, the point control never
  fills it (src/controls.js:345-349).

## Model

| member | source | states |
|---|---|---|
| `Features.GetFeatureName` | src/controls.js:99-102 | A handed-in state decides the name. Otherwise the store's record for the feature's id decides it. With no record there is no name. |
| `Features.WithoutId` | src/controls.js:256-257 | The id-less copy keeps the feature's geometry and properties and has no id. |
| `Features.Added` | src/controls.js:258 | The added feature carries the assigned id and the draft's geometry and properties. |
| `Features.DuplicateKeepsAllButId` | src/controls.js:256-258 | The id-less copy, added under the old id, is the original feature. Under a new id it differs from the original only in its id. |
| `Classify.LineCount` | src/controls.js:395 | The number of LineStrings in a list, a reference count that never exceeds the list's length. |
| `Classify.LineCountAll` | src/controls.js:395 | A list has only LineStrings exactly when the LineString count equals its length. |
| `Classify.IsSupportedLine` | src/controls.js:307-309 | The line control accepts a list exactly when it has one feature and that one is counted as a LineString. |
| `Classify.IsSupportedPoint` | src/controls.js:341-343 | The point control accepts a list exactly when it has one feature and that one is counted as a Point. |
| `Classify.IsSupportedMultiLine` | src/controls.js:394-396 | The two-line control accepts a list exactly when it has two features and both are counted as LineStrings. |
| `Classify.IsSupported` | src/controls.js:307-396 | Whatever a control accepts is non-empty and holds only Points and LineStrings. |
| `Classify.PointCount` | src/controls.js:342 | The number of Points in a list, a reference count that never exceeds the list's length. |
| `Classify.SupportedShapes` | src/controls.js:307-396 | Some control accepts a list exactly when it is one Point, one LineString, or two LineStrings. |
| `Classify.AtMostOneControl` | src/controls.js:307-396 | No feature list is accepted by two different controls. |
| `Classify.EmptyRejected` | src/controls.js:307-396 | The empty list is rejected by every control. |
| `LineEdit.Matches` | src/controls.js:292 | The componentwise test over the vertex's components holds exactly when the vertex is a prefix of the point. |
| `LineEdit.MatchesAtSameArity` | src/controls.js:292 | Between a vertex and a point of the same arity the test is exact equality. |
| `LineEdit.FindFrom` | src/controls.js:291-293 | The scan from an index returns -1 or an index at or after it. No vertex before the result matches. A result other than -1 matches. |
| `LineEdit.FindPointInLine` | src/controls.js:290-294 | It returns the first matching index, or -1 exactly when no vertex matches. |
| `LineEdit.Splice` | src/controls.js:302 | After the splice, the sequence is one longer and holds the new element at its index. Earlier elements stay in place and later ones move up by one. |
| `LineEdit.SpliceUndone` | src/controls.js:302 | Removing the spliced element gives back the original sequence. |
| `LineEdit.InsertMidpoint` | src/controls.js:301-302 | There is one more vertex. The midpoint of vertices i and i+1 sits at i+1. Before and after it, the original vertices appear in order and unchanged. |
| `LineEdit.LastVertex` | src/controls.js:283 | It gives the last vertex, or nothing exactly when the line has no vertices. |
| `LineEdit.ExtendHint` | src/controls.js:277-288 | The hint starts at the line's last vertex. It continues the line's id, carries `properties.name`, and turns the name prompt off. |
| `LineEdit.JoiningDistance` | src/controls.js:373-376 | The joining distance is the default-unit length of exactly the one new segment, from the head's last vertex to the tail's first, that the joined line contains. |
| `LineEdit.OrderForJoin` | src/controls.js:371-379 | The result is a permutation of the two lines. It is `[f0, f1]` exactly when f0's end is no farther from f1's start than f1's end is from f0's start. The chosen head always has the shorter or equal joining distance. |
| `LineEdit.OrderForJoinSymmetric` | src/controls.js:377-378 | Without a tie, swapping the two inputs does not change the chosen head and tail. |
| `LineEdit.OrderForJoinTie` | src/controls.js:377-378 | A tie keeps the original order. |
| `LineEdit.InsertKeepsVertices` | src/controls.js:296-303 | A vertex found in a line is still found after a midpoint is inserted, so a selected vertex stays a vertex. |
| `LineEdit.Joined` | src/controls.js:386 | The joined line keeps the head's id and properties. Its vertices are all of the head's followed by all of the tail's, so its length is the sum. |
| `LineEdit.JoinedEndpoints` | src/controls.js:386 | The joined line starts where the head starts and ends where the tail ends. |
| `Display.Abbr` | src/controls.js:11-14 | miles gives "mi" and kilometers gives "km". Any other unit that is not an `Object.prototype` member name prints "undefined". |
| `Display.BaseUnitsAsWritten` | src/controls.js:21 | As written, the base constructor fails exactly when no non-empty unit is configured. Otherwise it keeps the configured unit. |
| `Display.MissingUnitsThrowAsWritten` | src/controls.js:21 | As written, a missing or empty unit raises the reference error. |
| `Display.DistanceUnits` | src/controls.js:203 | The configured unit is used when non-empty. Otherwise the unit is "kilometers". |
| `Display.DistanceUnitsCorrected` | src/controls.js:21 | The corrected default agrees with the code as written wherever that code succeeds. Where it fails, the corrected default gives a unit abbreviated "km". |
| `Display.DisplayName` | src/controls.js:354 | The result is never empty. A non-empty name shows as itself. An absent or empty name shows as "Untitled". |
| `Display.LineText` | src/controls.js:324-325 | The line text is the name or "Untitled", then ": ", the formatted distance, a space and the abbreviation; its length is the sum of the parts and each part can be read back at its offset. |
| `Display.MultiLineText` | src/controls.js:407-408 | The two-line text is "Multiple lines: ", the formatted total, a space and the abbreviation; each part can be read back at its offset. |
| `Display.LineTextDeterminesDistance` | src/controls.js:324-325 | For a fixed name, two line texts are equal only if their formatted distances are equal. |
| `Display.TotalLength` | src/controls.js:406 | The left fold from 0 over the list equals the first line's length plus the fold over the rest. |
| `Display.TotalLengthOfTwo` | src/controls.js:406 | The reduce over two lines is the sum of their lengths, in either order. |
| `Display.MultiLineTextIgnoresNames` | src/controls.js:404-409 | The two-line text does not depend on the handed-in state, the name store, or the order of the two lines. |
| `Display.FeaturesText` | src/controls.js:319-409 | A set name starts the point and line texts. Without one the point shows "Untitled" and the line text starts "Untitled: ". The two-line text starts "Multiple lines: ". Line and two-line texts end with a space and the unit abbreviation. |
| `Display.StoredNameShown` | src/controls.js:351-355 | With a non-empty name stored for the first feature, the point text is exactly that name and the line text starts with "name: ". |
| `Display.NameOrEmpty` | src/controls.js:316 | An absent name fills the input with the empty string. A name present fills it with that name. |
| `Display.InputAsWritten` | src/controls.js:311-349 | As written, only the line control fills the input; the point control keeps whatever was there. |
| `Display.StaleInputAsWritten` | src/controls.js:345-349 | As written, a previously typed "Cafe" stays in the point control's input, so confirming the form for an unnamed point changes its text from "Untitled" to "Cafe". |
| `Display.InputAfterSetFeatures` | src/controls.js:316 | Corrected: both controls with a name form fill the input with the current name or ""; the two-line control keeps it. |
| `Display.ConfirmWithoutTyping` | src/controls.js:167-171 | With the corrected fill, saving the form without typing leaves the line or point text as it was, whatever the store holds at that time. |
| `Controls.Draw.Selected` | src/controls.js:263 | `getSelected()` gives one feature per selected id, the one the store holds under that id now. |
| `Controls.SelectedFeatures` | src/controls.js:263 | The features under a list of ids, one per id and in the same order. |
| `Controls.Unselect` | src/controls.js:387 | After `delete`, the selection holds exactly the other ids it held, and is no longer than before. |
| `Controls.InfoControl.constructor` | src/controls.js:201-203 | The unit is configured with the kilometers default. The control starts hidden, with no text, no features and the edit form closed. |
| `Controls.InfoControl.ClearFeatures` | src/controls.js:86-93 | The container is hidden and the text emptied. The features, edit form and input are untouched. |
| `Controls.InfoControl.SetFeaturesText` | src/controls.js:319-326 | The text becomes the kind's display text for the list, the handed-in state and the current store. |
| `Controls.InfoControl.SetFeatures` | src/controls.js:311-317 | It records the list, closes the edit form, writes the text and shows the container. On the line and point controls it also fills the input with the name or "" (point: corrected, see Findings); the two-line control keeps it. |
| `Controls.InfoControl.OnDrawCreate` | src/controls.js:61-66 | A supported list is shown. Anything else leaves the control's whole state unchanged. |
| `Controls.InfoControl.OnDrawUpdate` | src/controls.js:68-73 | The list is shown only when it is supported and the action is a coordinate change. Otherwise nothing changes. |
| `Controls.InfoControl.OnDrawSelectionChange` | src/controls.js:75-80 | Afterwards the control is shown exactly when the list is supported. Otherwise it is hidden with empty text and keeps its features. |
| `Controls.InfoControl.OnDrawDelete` | src/controls.js:82-84 | The control is always hidden with empty text. |
| `Controls.InfoControl.OnDrawLineMouseMove` | src/controls.js:230-233 | The line being drawn is shown, with the name taken from the drawing mode's state. Nothing is written to a store. |
| `Controls.InfoControl.OnClickEditInfo` | src/controls.js:151-160 | The edit form opens. |
| `Controls.InfoControl.SaveEditForm` | src/controls.js:167-172 | The store maps the first feature's id to the input's value, with every other entry unchanged. The text is redisplayed with that name. |
| `Controls.InfoControl.OnEditFormInputKeyup` | src/controls.js:174-181 | Enter saves and closes. Escape closes without writing. Any other key changes nothing. |
| `Controls.InfoControl.OnClickOKEditButton` | src/controls.js:183-186 | OK saves the name under the first feature's id, redisplays and closes the form. |
| `Controls.InfoControl.OnClickCancelEditButton` | src/controls.js:188-190 | Cancel closes the form without writing. |
| `Controls.InfoControl.ExtendLineString` | src/controls.js:277-288 | The widget enters line drawing with the line's extend hint. |
| `Controls.InfoControl.InsertPointIntoLine` | src/controls.js:296-305 | At the last vertex the line is extended and the store is unchanged. Otherwise the line with the midpoint inserted after the found vertex replaces it in the store, and the mode is unchanged. The store stays keyed by id. |
| `Controls.InfoControl.OnClickAddLinePoint` | src/controls.js:235-252 | Without exactly one selected line nothing happens. In simple-select mode the line is extended. In direct-select mode with exactly one selected vertex, the insertion rule applies. In every other case nothing happens. Afterwards the selected vertices are still vertices of the (re-read) selected line. |
| `Controls.InfoControl.OnClickDuplicateFeature` | src/controls.js:254-264 | The copy is stored under the new id and is the only selected feature; what the widget reports as selected is the copy. It is displayed, and without feature state of its own it shows as "Untitled". |
| `Controls.InfoControl.OnClickJoinLines` | src/controls.js:381-392 | The tail's id is deleted from the store and from the selection, and the head's id maps to the joined line. Exactly one selection change, with the joined head alone, is fired. The held feature at the head's position becomes the joined line. The control ends up hidden. |

## Left out

- DOM construction, CSS classes, focus, `getDefaultPosition`, listener registration and removal, and `onRemove` (src/controls.js:24-59, 108-165, 219-228) are plumbing. Visibility, text, edit form and input are plain fields.
- turf `length` and `midpoint` are floating-point geodesic computations in a foreign library. They are uninterpreted functions, so no numeric property of a length is stated. In particular, a joined line's length is not related to the two lengths.
- `toLocaleString` is locale-dependent number formatting. It is an uninterpreted function from a number to a string.
- Positions are sequences of `real`. There is no NaN and no rounding, so `===` on floating-point numbers is modelled as exact equality. The possible mismatch between a computed midpoint and a later vertex lookup is not captured.
- The drawing widget and the map are external. Their `add`, `delete`, `changeMode`, `getSelected`, `getSelectedPoints`, `getFeatureState`, `setFeatureState` and `fire` are modelled by the state each call reads or changes on `Draw` and `MapView`: `add` stores under the feature's id, `delete` removes from the store and the selection, `changeMode` to simple-select sets the selection to the given ids, and `getSelected` looks the selected ids up in the store. Their internal behaviour beyond that is not verified.
- Unknown units in turf `length`: it throws "units is invalid" for a unit it does not know (such as "furlongs") on any line with two or more vertices. The line text, the two-line text and the container's display are then never written. `Geo.length` is total, so the model writes a text where the source raises an error; that rejection is not modelled.
- Display.Abbr: the "undefined" clause is stated only for units that are not `Object.prototype` member names. A unit such as "constructor" or "toString" finds an inherited function in the table, and the text then holds that function's source text, which the model does not represent.
- Of the listeners a fired selection change reaches, only the firing control's own is modelled. The other controls' listeners are not.
- `onClickSplitLine` (src/controls.js:266-275) calls a `splitLine` method that exists nowhere, so there is no behaviour to model.
- The stray `)` at src/controls.js:216 makes the file fail to parse as written. The model reads the line control's constructor as the evident array literal of three edit actions. That list has no behaviour of its own: each action is modelled by its handler.
- Controls.InfoControl.InsertPointIntoLine: it requires the vertex to be found, or the line to be empty. When a line with vertices lacks the vertex, the source reads `coordinates[-1]` and has no defined result. `OnClickAddLinePoint` therefore requires the widget to select only vertices of the selected line.
- Controls.InfoControl.SaveEditForm: it requires the control to be shown, because the form's buttons and input sit inside the container. The same holds for Enter in the input, OK, duplicate and join.
- Controls.InfoControl.OnClickJoinLines: it requires each line to have a vertex, because its first and last vertex are read. It assumes the widget's lines always have vertices.
- Concurrency: the controls run on a single-threaded event loop, and each handler is modelled as one atomic step.

## Findings

| source | as written | input that shows it | evidently intended | confidence | as-written member | corrected member |
|---|---|---|---|---|---|---|
| src/controls.js:21 | the base constructor falls back to `DEFAULT_DISTANCE_UNITS`, an identifier declared nowhere | any control constructed without `distanceUnits` (or with an empty one) raises a ReferenceError before its own default is reached | fall back to "kilometers", as each subclass constructor does (src/controls.js:203, 333, 363) | not executed | `Display.MissingUnitsThrowAsWritten` | `Display.DistanceUnitsCorrected` |
| src/controls.js:345-349 | the point control's `setFeatures` never fills the name input, unlike the line control's (src/controls.js:316) | type "Cafe" in the form of one point, select an unnamed point, press OK without typing: "Untitled" becomes "Cafe" and the name is saved | fill the input with the current name or "" as the line control does | not executed | `Display.StaleInputAsWritten` | `Display.ConfirmWithoutTyping` |
