/** The distance-unit configuration and the display texts of the three
    controls. */
module Display {
  import opened Features
  import opened Classify

  /** The members every plain object inherits from Object.prototype; a
      unit spelled like one of them is found by the table lookup. */
  predicate NamesPrototypeMember(units: string) {
    units in {"constructor", "hasOwnProperty", "isPrototypeOf", "propertyIsEnumerable",
              "toString", "toLocaleString", "valueOf", "__proto__", "__defineGetter__",
              "__defineSetter__", "__lookupGetter__", "__lookupSetter__"}
  }

  /** The abbreviation table: "miles" and "kilometers". A unit the table
      does not hold is missed, and concatenating the missing entry into the
      text writes "undefined". */
  function Abbr(units: string): (r: string)
    ensures units == "miles" ==> r == "mi"
    ensures units == "kilometers" ==> r == "km"
    ensures units != "miles" && units != "kilometers" && !NamesPrototypeMember(units) ==>
      r == "undefined"
  {
    if units == "miles" then "mi"
    else if units == "kilometers" then "km"
    else "undefined"
  }

  datatype Result<+T, +E> = Ok(value: T) | Err(error: E)

  /** The base constructor as written: `options.distanceUnits ||
      DEFAULT_DISTANCE_UNITS`, where that constant is declared nowhere, so
      an absent or empty unit raises a ReferenceError. */
  function BaseUnitsAsWritten(distanceUnits: Option<string>): (r: Result<string, string>)
    ensures r.Ok? <==> distanceUnits.Some? && distanceUnits.value != ""
    ensures r.Ok? ==> r.value == distanceUnits.value
  {
    if distanceUnits.Some? && distanceUnits.value != "" then Ok(distanceUnits.value)
    else Err("ReferenceError: DEFAULT_DISTANCE_UNITS is not defined")
  }

  /** A control constructed without a unit never gets past the base
      constructor as written. */
  lemma MissingUnitsThrowAsWritten()
    ensures BaseUnitsAsWritten(None).Err?
    ensures BaseUnitsAsWritten(Some("")).Err?
  {
  }

  /** The unit as each control's own constructor sets it: the configured
      unit, or "kilometers" when it is absent or empty. */
  function DistanceUnits(distanceUnits: Option<string>): (r: string)
    ensures r != ""
    ensures distanceUnits.Some? && distanceUnits.value != "" ==> r == distanceUnits.value
    ensures distanceUnits.None? || distanceUnits.value == "" ==> r == "kilometers"
  {
    if distanceUnits.Some? && distanceUnits.value != "" then distanceUnits.value
    else "kilometers"
  }

  /** The corrected default agrees with the code as written wherever that
      code gets through, and always yields a unit whose abbreviation is
      known unless the caller configured an unknown one. */
  lemma DistanceUnitsCorrected(distanceUnits: Option<string>)
    ensures BaseUnitsAsWritten(distanceUnits).Ok? ==>
            DistanceUnits(distanceUnits) == BaseUnitsAsWritten(distanceUnits).value
    ensures BaseUnitsAsWritten(distanceUnits).Err? ==>
            Abbr(DistanceUnits(distanceUnits)) == "km"
  {
  }

  /** `name || 'Untitled'`: an absent or empty name falls back. */
  function DisplayName(name: Option<string>): (r: string)
    ensures r != ""
    ensures name.Some? && name.value != "" ==> r == name.value
    ensures name.None? || name.value == "" ==> r == "Untitled"
  {
    if name.Some? && name.value != "" then name.value else "Untitled"
  }

  /** The single-line text: name or fallback, ": ", the formatted length,
      a space and the unit abbreviation; each part can be read back. */
  function LineText(name: Option<string>, distance: string, units: string): (r: string)
    ensures var n, a := DisplayName(name), Abbr(units);
      && |r| == |n| + 2 + |distance| + 1 + |a|
      && r[..|n| + 2] == n + ": "
      && r[|n| + 2..|n| + 2 + |distance|] == distance
      && r[|r| - |a| - 1..] == " " + a
  {
    var n, a := DisplayName(name), Abbr(units);
    var r := n + ": " + distance + " " + a;
    assert r[..|n| + 2] == n + ": ";
    assert r[|n| + 2..|n| + 2 + |distance|] == distance;
    assert r[|r| - |a| - 1..] == " " + a;
    r
  }

  /** The two-line text: a fixed prefix, the formatted total, a space and
      the unit abbreviation; each part can be read back. */
  function MultiLineText(distance: string, units: string): (r: string)
    ensures var a := Abbr(units);
      && |r| == 16 + |distance| + 1 + |a|
      && r[..16] == "Multiple lines: "
      && r[16..16 + |distance|] == distance
      && r[|r| - |a| - 1..] == " " + a
  {
    var a := Abbr(units);
    var r := "Multiple lines: " + distance + " " + a;
    assert r[..16] == "Multiple lines: ";
    assert r[16..16 + |distance|] == distance;
    assert r[|r| - |a| - 1..] == " " + a;
    r
  }

  /** With the name fixed, the line text determines the formatted distance:
      two different distances never show the same text. */
  lemma LineTextDeterminesDistance(name: Option<string>, d1: string, d2: string, units: string)
    requires LineText(name, d1, units) == LineText(name, d2, units)
    ensures d1 == d2
  {
  }

  /** `features.reduce((acc, f) => acc + length(f, units), 0)`, a left
      fold from 0; it equals the sum taken from the front. */
  function TotalLength(fs: seq<Feature>, geo: Geo, units: string): (r: real)
    decreases |fs|
    ensures fs != [] ==> r == geo.length(fs[0].geometry, units) + TotalLength(fs[1..], geo, units)
  {
    if fs == [] then 0.0
    else
      assert |fs| > 1 ==> fs[1..][..|fs| - 2] == fs[..|fs| - 1][1..];
      TotalLength(fs[..|fs| - 1], geo, units) + geo.length(fs[|fs| - 1].geometry, units)
  }

  /** The total over two lines is their sum, whichever is listed first. */
  lemma TotalLengthOfTwo(a: Feature, b: Feature, geo: Geo, units: string)
    ensures TotalLength([a, b], geo, units) == geo.length(a.geometry, units) + geo.length(b.geometry, units)
    ensures TotalLength([a, b], geo, units) == TotalLength([b, a], geo, units)
  {
    assert [a, b][..1] == [a] && [a][..0] == [];
    assert [b, a][..1] == [b] && [b][..0] == [];
    assert TotalLength([a], geo, units) == geo.length(a.geometry, units);
    assert TotalLength([b], geo, units) == geo.length(b.geometry, units);
  }

  /** setFeaturesText of the control of the given kind, with the state that
      was handed in and the feature-state store as they are. */
  function FeaturesText(kind: Kind, units: string, geo: Geo, fs: seq<Feature>,
                        state: Option<FeatureState>, store: map<Id, FeatureState>): (r: string)
    requires fs != []
    ensures var name := GetFeatureName(fs[0], state, store);
      kind != MultiLineInfo && name.Some? && name.value != "" ==>
        |r| >= |name.value| && r[..|name.value|] == name.value
    ensures var name := GetFeatureName(fs[0], state, store);
      kind == PointInfo && (name.None? || name.value == "") ==> r == "Untitled"
    ensures var name := GetFeatureName(fs[0], state, store);
      kind == LineInfo && (name.None? || name.value == "") ==> |r| >= 10 && r[..10] == "Untitled: "
    ensures kind == PointInfo ==> r != ""
    ensures kind == MultiLineInfo ==> |r| >= 16 && r[..16] == "Multiple lines: "
    ensures kind != PointInfo ==>
      |r| > |Abbr(units)| && r[|r| - |Abbr(units)| - 1..] == " " + Abbr(units)
  {
    var name := GetFeatureName(fs[0], state, store);
    match kind
    case PointInfo => DisplayName(name)
    case LineInfo =>
      var n := DisplayName(name);
      var r := LineText(name, geo.format(geo.length(fs[0].geometry, units)), units);
      assert r[..|n|] == r[..|n| + 2][..|n|] == n;
      r
    case MultiLineInfo => MultiLineText(geo.format(TotalLength(fs, geo, units)), units)
  }

  /** The two-line text reads no name: neither a handed-in state nor the
      store changes it, and neither does swapping the two lines. */
  lemma MultiLineTextIgnoresNames(units: string, geo: Geo, a: Feature, b: Feature,
                                  s1: Option<FeatureState>, st1: map<Id, FeatureState>,
                                  s2: Option<FeatureState>, st2: map<Id, FeatureState>)
    ensures FeaturesText(MultiLineInfo, units, geo, [a, b], s1, st1) ==
            FeaturesText(MultiLineInfo, units, geo, [b, a], s2, st2)
  {
    TotalLengthOfTwo(a, b, geo, units);
  }

  /** Once a name is in the store, a point shows exactly that name and a
      line text begins with it (unless the name is empty, which shows the
      fallback). */
  lemma StoredNameShown(kind: Kind, units: string, geo: Geo, fs: seq<Feature>,
                        store: map<Id, FeatureState>, name: string)
    requires fs != [] && name != ""
    requires fs[0].id in store && store[fs[0].id].name == Some(name)
    ensures kind == PointInfo ==> FeaturesText(kind, units, geo, fs, None, store) == name
    ensures kind == LineInfo ==>
      FeaturesText(kind, units, geo, fs, None, store)[..|name| + 2] == name + ": "
  {
  }

  /** `getFeatureName(...) || ''`, the value put in the name input. */
  function NameOrEmpty(name: Option<string>): (r: string)
    ensures name.None? ==> r == ""
    ensures name.Some? ==> r == name.value
  {
    if name.Some? then name.value else ""
  }

  /** The name input after setFeatures as written: only the line control
      fills it (src/controls.js:316); the point control leaves whatever an
      earlier edit typed. */
  function InputAsWritten(kind: Kind, input: string, name: Option<string>): (r: string)
    ensures kind == LineInfo ==> r == NameOrEmpty(name)
    ensures kind != LineInfo ==> r == input
  {
    if kind == LineInfo then NameOrEmpty(name) else input
  }

  /** As written, confirming the point control's form without typing can
      rename a point: after "Cafe" was typed for one point, a second point
      with no name shows "Untitled" but OK shows and saves "Cafe". */
  lemma StaleInputAsWritten(units: string, geo: Geo, b: Feature, store: map<Id, FeatureState>)
    requires b.id !in store
    ensures var filled := InputAsWritten(PointInfo, "Cafe", GetFeatureName(b, None, store));
      && filled == "Cafe"
      && FeaturesText(PointInfo, units, geo, [b], None, store) == "Untitled"
      && FeaturesText(PointInfo, units, geo, [b], Some(FeatureState(Some(filled))), store) == "Cafe"
  {
  }

  /** The name input after setFeatures, corrected: every control with an
      edit action (line and point) fills it with the current name. */
  function InputAfterSetFeatures(kind: Kind, input: string, name: Option<string>): (r: string)
    ensures kind != MultiLineInfo ==> r == NameOrEmpty(name)
    ensures kind == MultiLineInfo ==> r == input
  {
    if kind != MultiLineInfo then NameOrEmpty(name) else input
  }

  /** Confirming the edit form without typing saves the filled-in name and
      leaves the displayed text as it was, whatever the store holds then. */
  lemma ConfirmWithoutTyping(kind: Kind, units: string, geo: Geo, fs: seq<Feature>,
                             state: Option<FeatureState>, store: map<Id, FeatureState>,
                             later: map<Id, FeatureState>, input: string)
    requires fs != [] && kind != MultiLineInfo
    ensures var filled := InputAfterSetFeatures(kind, input, GetFeatureName(fs[0], state, store));
      FeaturesText(kind, units, geo, fs, Some(FeatureState(Some(filled))), later) ==
      FeaturesText(kind, units, geo, fs, state, store)
  {
  }
}
