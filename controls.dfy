/** The info controls: their display state, the drawing-widget events that
    drive it, the name edit form, and the line-editing actions. The drawing
    widget and the map are modelled by the state the controls read and
    write on them. */
module Controls {
  import opened Features
  import opened Classify
  import opened LineEdit
  import opened Display

  /** The drawing widget's modes as far as the controls read or enter them. */
  datatype Mode =
    | SimpleSelect(featureIds: seq<Id>)
    | DirectSelect
    | DrawLineString(options: DrawLineOptions)
    | OtherMode

  /** The `action` of an update event. */
  datatype UpdateAction = ChangeCoordinates | ChangeProperties | Move

  /** The key of a keyup in the name input. */
  datatype Key = Enter | Escape | OtherKey

  /** The drawing widget: its feature store, its mode, the ids of the
      selected features and (in direct-select mode) the selected vertices.
      getSelected() looks the selected ids up in the store, so a feature
      stored again is seen selected in its new form. */
  class Draw {
    var store: map<Id, Feature>
    var mode: Mode
    var selectedIds: seq<Id>
    var selectedPoints: seq<Position>

    /** The store is keyed by feature id, and only stored features are selected. */
    ghost predicate Valid()
      reads this
    {
      && (forall id | id in store :: store[id].id == id)
      && (forall id <- selectedIds :: id in store)
    }

    /** getSelected().features. */
    function Selected(): (fs: seq<Feature>)
      reads this
      requires Valid()
      ensures |fs| == |selectedIds|
      ensures forall i :: 0 <= i < |fs| ==> fs[i] == store[selectedIds[i]] && fs[i].id == selectedIds[i]
    {
      SelectedFeatures(selectedIds, store)
    }

    /** The widget only ever selects vertices of the selected line. */
    ghost predicate VerticesOfSelection()
      reads this
      requires Valid()
    {
      var selected := Selected();
      |selected| == 1 && selected[0].geometry.LineString? ==>
        var coords := selected[0].geometry.coordinates;
        forall p <- selectedPoints :: FindPointInLine(coords, p) != -1 || coords == []
    }
  }

  /** The features stored under the given ids, in the order of the ids. */
  function SelectedFeatures(ids: seq<Id>, store: map<Id, Feature>): (fs: seq<Feature>)
    requires forall id <- ids :: id in store
    ensures |fs| == |ids|
    ensures forall i :: 0 <= i < |ids| ==> fs[i] == store[ids[i]]
  {
    if ids == [] then [] else [store[ids[0]]] + SelectedFeatures(ids[1..], store)
  }

  /** The selection after a feature is deleted: every other id, in order. */
  function Unselect(ids: seq<Id>, id: Id): (r: seq<Id>)
    ensures forall x :: x in r <==> x in ids && x != id
    ensures |r| <= |ids|
  {
    if ids == [] then [] else (if ids[0] == id then [] else [ids[0]]) + Unselect(ids[1..], id)
  }

  /** The map: its feature-state store and the selection-change events that
      the controls fire on it. */
  class MapView {
    var featureState: map<Id, FeatureState>
    var fired: seq<seq<Feature>>
  }

  /** One info control, of one of the three kinds; its fields are the
      container's visibility, its text, the edit form's visibility and the
      name input's value, beside the features it last displayed. */
  class InfoControl {
    const kind: Kind
    const distanceUnits: string
    const geo: Geo
    const draw: Draw
    const mapView: MapView

    var features: seq<Feature>
    var shown: bool
    var text: string
    var editFormOpen: bool
    var input: string

    /** The lists setFeatures is ever handed: what the control supports,
        and for the line control also the feature of a mouse move. */
    predicate Displayable(fs: seq<Feature>) {
      if kind == LineInfo then |fs| == 1 else IsSupported(kind, fs)
    }

    /** A shown control displays a list it can display; a hidden one has no text. */
    ghost predicate Valid()
      reads this
    {
      (shown ==> Displayable(features)) && (!shown ==> text == "")
    }

    /** The text setFeaturesText computes for a list and a handed-in state. */
    ghost function TextFor(fs: seq<Feature>, state: Option<FeatureState>): string
      reads this, mapView
      requires fs != []
    {
      FeaturesText(kind, distanceUnits, geo, fs, state, mapView.featureState)
    }

    /** The state right after setFeatures(fs, state). */
    ghost predicate Showing(fs: seq<Feature>, state: Option<FeatureState>)
      reads this, mapView
    {
      && fs != []
      && shown && features == fs && !editFormOpen
      && text == TextFor(fs, state)
      && (kind != MultiLineInfo ==> input == NameOrEmpty(GetFeatureName(fs[0], state, mapView.featureState)))
    }

    /** Construction followed by onAdd, which starts out cleared. */
    constructor (kind: Kind, distanceUnits: Option<string>, geo: Geo, draw: Draw, mapView: MapView)
      ensures this.kind == kind && this.distanceUnits == DistanceUnits(distanceUnits)
      ensures this.geo == geo && this.draw == draw && this.mapView == mapView
      ensures features == [] && !shown && text == "" && !editFormOpen && input == ""
      ensures Valid()
    {
      this.kind := kind;
      this.distanceUnits := DistanceUnits(distanceUnits);
      this.geo := geo;
      this.draw := draw;
      this.mapView := mapView;
      features := [];
      shown := false;
      text := "";
      editFormOpen := false;
      input := "";
    }

    /** clearFeatures: hides the container and empties its text; the
        features last set are kept. */
    method ClearFeatures()
      modifies this
      ensures !shown && text == ""
      ensures features == old(features) && editFormOpen == old(editFormOpen) && input == old(input)
      ensures Valid()
    {
      shown := false;
      text := "";
    }

    /** setFeaturesText of this control's kind. */
    method SetFeaturesText(fs: seq<Feature>, state: Option<FeatureState>)
      requires fs != []
      modifies this`text
      ensures text == TextFor(fs, state)
    {
      text := FeaturesText(kind, distanceUnits, geo, fs, state, mapView.featureState);
    }

    /** setFeatures along the class chain: keep the features, close the
        edit form, write the text, show the container and, on the controls
        with an edit form, fill the name input. */
    method SetFeatures(fs: seq<Feature>, state: Option<FeatureState>)
      requires Displayable(fs)
      modifies this
      ensures Showing(fs, state)
      ensures kind == MultiLineInfo ==> input == old(input)
      ensures Valid()
    {
      features := fs;
      editFormOpen := false;
      SetFeaturesText(fs, state);
      shown := true;
      input := InputAfterSetFeatures(kind, input, GetFeatureName(fs[0], state, mapView.featureState));
    }

    /** onDrawCreate: a supported list is shown, anything else is ignored. */
    method OnDrawCreate(fs: seq<Feature>)
      requires Valid()
      modifies this
      ensures IsSupported(kind, fs) ==> Showing(fs, None)
      ensures IsSupported(kind, fs) && kind == MultiLineInfo ==> input == old(input)
      ensures !IsSupported(kind, fs) ==>
        shown == old(shown) && text == old(text) && features == old(features) &&
        editFormOpen == old(editFormOpen) && input == old(input)
      ensures Valid()
    {
      if IsSupported(kind, fs) {
        ClearFeatures();
        SetFeatures(fs, None);
      }
    }

    /** onDrawUpdate: only a coordinate change of a supported list is shown. */
    method OnDrawUpdate(fs: seq<Feature>, action: UpdateAction)
      requires Valid()
      modifies this
      ensures IsSupported(kind, fs) && action == ChangeCoordinates ==> Showing(fs, None)
      ensures IsSupported(kind, fs) && action == ChangeCoordinates && kind == MultiLineInfo ==>
        input == old(input)
      ensures !(IsSupported(kind, fs) && action == ChangeCoordinates) ==>
        shown == old(shown) && text == old(text) && features == old(features) &&
        editFormOpen == old(editFormOpen) && input == old(input)
      ensures Valid()
    {
      if IsSupported(kind, fs) && action == ChangeCoordinates {
        ClearFeatures();
        SetFeatures(fs, None);
      }
    }

    /** onDrawSelectionChange: always clears, then shows a supported list. */
    method OnDrawSelectionChange(fs: seq<Feature>)
      requires Valid()
      modifies this
      ensures shown <==> IsSupported(kind, fs)
      ensures IsSupported(kind, fs) ==> Showing(fs, None)
      ensures IsSupported(kind, fs) && kind == MultiLineInfo ==> input == old(input)
      ensures !IsSupported(kind, fs) ==>
        text == "" && features == old(features) &&
        editFormOpen == old(editFormOpen) && input == old(input)
      ensures Valid()
    {
      ClearFeatures();
      if IsSupported(kind, fs) {
        SetFeatures(fs, None);
      }
    }

    /** onDrawDelete: always hides. */
    method OnDrawDelete()
      requires Valid()
      modifies this
      ensures !shown && text == ""
      ensures features == old(features) && editFormOpen == old(editFormOpen) && input == old(input)
      ensures Valid()
    {
      ClearFeatures();
    }

    /** onDrawLineMouseMove of the line control: shows the feature being
        drawn with the drawing mode's state, which only overrides the name
        lookup and is written nowhere. */
    method OnDrawLineMouseMove(f: Feature, state: FeatureState)
      requires Valid() && kind == LineInfo
      modifies this
      ensures Showing([f], Some(state))
      ensures text == LineText(state.name, geo.format(geo.length(f.geometry, distanceUnits)), distanceUnits)
      ensures Valid()
    {
      ClearFeatures();
      SetFeatures([f], Some(state));
    }

    /** onClickEditInfo / displayEditForm. */
    method OnClickEditInfo()
      modifies this`editFormOpen
      ensures editFormOpen
    {
      editFormOpen := true;
    }

    /** saveEditForm: writes the input's value as the name of the first
        displayed feature, then redisplays with that name. The form sits
        inside the container, so it is only reachable while shown. */
    method SaveEditForm()
      requires Valid() && shown
      modifies this`text, mapView`featureState
      ensures mapView.featureState ==
        old(mapView.featureState)[features[0].id := FeatureState(Some(input))]
      ensures text == TextFor(features, Some(FeatureState(Some(input))))
      ensures kind == PointInfo ==> text == DisplayName(Some(input))
      ensures kind == LineInfo ==>
        text == LineText(Some(input), geo.format(geo.length(features[0].geometry, distanceUnits)),
                         distanceUnits)
      ensures Valid()
    {
      var newName := input;
      mapView.featureState := mapView.featureState[features[0].id := FeatureState(Some(newName))];
      SetFeaturesText(features, Some(FeatureState(Some(newName))));
    }

    /** onEditFormInputKeyup: Enter confirms and closes, Escape closes
        without writing, any other key does nothing. */
    method OnEditFormInputKeyup(key: Key)
      requires Valid() && (key == Enter ==> shown)
      modifies this`text, this`editFormOpen, mapView`featureState
      ensures key == Enter ==>
        mapView.featureState ==
          old(mapView.featureState)[features[0].id := FeatureState(Some(input))] &&
        text == TextFor(features, Some(FeatureState(Some(input)))) && !editFormOpen
      ensures key == Escape ==>
        mapView.featureState == old(mapView.featureState) && text == old(text) && !editFormOpen
      ensures key == OtherKey ==>
        mapView.featureState == old(mapView.featureState) && text == old(text) &&
        editFormOpen == old(editFormOpen)
      ensures Valid()
    {
      if key == Enter {
        SaveEditForm();
        editFormOpen := false;
      } else if key == Escape {
        editFormOpen := false;
      }
    }

    /** The OK button: confirm and close. */
    method OnClickOKEditButton()
      requires Valid() && shown
      modifies this`text, this`editFormOpen, mapView`featureState
      ensures mapView.featureState ==
        old(mapView.featureState)[features[0].id := FeatureState(Some(input))]
      ensures text == TextFor(features, Some(FeatureState(Some(input)))) && !editFormOpen
      ensures Valid()
    {
      SaveEditForm();
      editFormOpen := false;
    }

    /** The Cancel button: close without writing. */
    method OnClickCancelEditButton()
      modifies this`editFormOpen
      ensures !editFormOpen
    {
      editFormOpen := false;
    }

    /** extendLineString: enter line drawing from the line's last vertex. */
    method ExtendLineString(line: Feature)
      requires kind == LineInfo && line.geometry.LineString?
      modifies draw`mode
      ensures draw.mode == DrawLineString(ExtendHint(line))
    {
      draw.mode := DrawLineString(ExtendHint(line));
    }

    /** insertPointIntoLine: at the last vertex, extend the line; elsewhere
        splice the midpoint after the found vertex and store the line. The
        not-found lookup on a line with vertices has no defined result in
        the source and is excluded. */
    method InsertPointIntoLine(line: Feature, point: Position)
      requires kind == LineInfo && draw.Valid() && line.geometry.LineString?
      requires FindPointInLine(line.geometry.coordinates, point) != -1 || line.geometry.coordinates == []
      modifies draw`mode, draw`store
      ensures var coords := line.geometry.coordinates;
        var i := FindPointInLine(coords, point);
        if i == |coords| - 1 then
          draw.mode == DrawLineString(ExtendHint(line)) && draw.store == old(draw.store)
        else
          0 <= i < |coords| - 1 && draw.mode == old(draw.mode) &&
          draw.store == old(draw.store)[line.id := line.(geometry := LineString(InsertMidpoint(coords, i, geo)))]
      ensures draw.Valid()
    {
      var coords := line.geometry.coordinates;
      var pointIndex := FindPointInLine(coords, point);
      if pointIndex == |coords| - 1 {
        ExtendLineString(line);
      } else {
        coords := InsertMidpoint(coords, pointIndex, geo);
        draw.store := draw.store[line.id := line.(geometry := LineString(coords))];
      }
    }

    /** onClickAddLinePoint: with exactly one line selected, extend it in
        simple-select mode, or insert a midpoint after the single selected
        vertex in direct-select mode; otherwise nothing happens. The
        selection is re-read from the store, and the selected vertex is
        still a vertex afterwards, so the action can be repeated. */
    method OnClickAddLinePoint()
      requires kind == LineInfo && draw.Valid() && draw.VerticesOfSelection()
      modifies draw`mode, draw`store
      ensures var sel := old(draw.Selected());
        !(|sel| == 1 && sel[0].geometry.LineString?) ==>
        draw.mode == old(draw.mode) && draw.store == old(draw.store)
      ensures var sel := old(draw.Selected());
        |sel| == 1 && sel[0].geometry.LineString? && old(draw.mode).SimpleSelect? ==>
        draw.mode == DrawLineString(ExtendHint(sel[0])) && draw.store == old(draw.store)
      ensures var sel := old(draw.Selected());
        |sel| == 1 && sel[0].geometry.LineString? &&
        old(draw.mode).DirectSelect? && |old(draw.selectedPoints)| == 1 ==>
        var line := sel[0];
        var coords := line.geometry.coordinates;
        var i := FindPointInLine(coords, old(draw.selectedPoints)[0]);
        if i == |coords| - 1 then
          draw.mode == DrawLineString(ExtendHint(line)) && draw.store == old(draw.store)
        else
          0 <= i < |coords| - 1 && draw.mode == old(draw.mode) &&
          draw.store == old(draw.store)[line.id := line.(geometry := LineString(InsertMidpoint(coords, i, geo)))]
      ensures var sel := old(draw.Selected());
        |sel| == 1 && sel[0].geometry.LineString? &&
        old(draw.mode).DirectSelect? && |old(draw.selectedPoints)| != 1 ==>
        draw.mode == old(draw.mode) && draw.store == old(draw.store)
      ensures !old(draw.mode).SimpleSelect? && !old(draw.mode).DirectSelect? ==>
        draw.mode == old(draw.mode) && draw.store == old(draw.store)
      ensures draw.Valid() && draw.VerticesOfSelection()
    {
      var selected, mode := draw.Selected(), draw.mode;
      if |selected| != 1 || !selected[0].geometry.LineString? {
        return;
      }
      var selectedLine := selected[0];
      if mode.SimpleSelect? {
        ExtendLineString(selectedLine);
      } else if mode.DirectSelect? {
        var selectedPoints := draw.selectedPoints;
        if |selectedPoints| == 1 {
          assert selectedPoints[0] in draw.selectedPoints;
          InsertPointIntoLine(selectedLine, selectedPoints[0]);
          var coords := selectedLine.geometry.coordinates;
          var i := FindPointInLine(coords, selectedPoints[0]);
          if i != |coords| - 1 {
            forall p <- draw.selectedPoints
              ensures FindPointInLine(InsertMidpoint(coords, i, geo), p) != -1
            {
              InsertKeepsVertices(coords, i, geo, p);
            }
            assert draw.Selected()[0] ==
              selectedLine.(geometry := LineString(InsertMidpoint(coords, i, geo)));
          }
        }
      }
    }

    /** onClickDuplicateFeature: add a copy of the displayed line without
        its id, under the id the widget assigns, select it alone and
        display what the widget then reports as selected. The copy has no
        feature state of its own. */
    method OnClickDuplicateFeature(newId: Id)
      requires Valid() && kind == LineInfo && shown && newId !in draw.store && draw.Valid()
      modifies this, draw`store, draw`mode, draw`selectedIds, draw`selectedPoints
      ensures var copy := Added(WithoutId(old(features)[0]), newId);
        && draw.store == old(draw.store)[newId := copy]
        && draw.mode == SimpleSelect([newId])
        && draw.selectedIds == [newId] && draw.selectedPoints == []
        && draw.Valid() && draw.Selected() == [copy]
        && Showing([copy], None)
      ensures newId !in mapView.featureState ==>
        text == LineText(None, geo.format(geo.length(old(features)[0].geometry, distanceUnits)),
                         distanceUnits) && input == ""
      ensures Valid()
    {
      var newLine := WithoutId(features[0]);
      var added := Added(newLine, newId);
      draw.store := draw.store[newId := added];
      // changeMode(SIMPLE_SELECT, { featureIds }) selects exactly the new feature
      draw.mode := SimpleSelect([newId]);
      draw.selectedIds := [newId];
      draw.selectedPoints := [];
      SetFeatures(draw.Selected(), None);
    }

    /** onClickJoinLines: concatenate the tail onto the head chosen by
        orderFeaturesByDistanceToAnother, store it, delete the tail (which
        also drops it from the selection), and fire a selection change with
        the head alone. The head object is the one held in `features`, so
        the change shows there too; the fired event reaches this control's
        own listener, which hides it, since a single line is not a two-line
        selection. */
    method OnClickJoinLines()
      requires Valid() && kind == MultiLineInfo && shown && draw.Valid()
      requires IsDrawnLine(features[0]) && IsDrawnLine(features[1])
      modifies this, draw`store, draw`selectedIds, mapView`fired
      ensures var f0, f1 := old(features)[0], old(features)[1];
        var ordered := OrderForJoin(f0, f1, geo);
        var merged := Joined(ordered[0], ordered[1]);
        && draw.store == (old(draw.store) - {ordered[1].id})[ordered[0].id := merged]
        && draw.selectedIds == Unselect(old(draw.selectedIds), ordered[1].id)
        && mapView.fired == old(mapView.fired) + [[merged]]
        && features == old(features)[(if ordered == [f0, f1] then 0 else 1) := merged]
      ensures !shown && text == ""
      ensures editFormOpen == old(editFormOpen) && input == old(input)
      ensures Valid() && draw.Valid()
    {
      var ordered := OrderForJoin(features[0], features[1], geo);
      var headIndex := if ordered == [features[0], features[1]] then 0 else 1;
      var startingFeature, removeFeature := ordered[0], ordered[1];
      var merged := Joined(startingFeature, removeFeature);
      features := features[headIndex := merged];
      draw.store := (draw.store - {removeFeature.id})[startingFeature.id := merged];
      draw.selectedIds := Unselect(draw.selectedIds, removeFeature.id);
      // the fired event is delivered to this control's own listener at once
      mapView.fired := mapView.fired + [[merged]];
      OnDrawSelectionChange([merged]);
    }
  }
}
