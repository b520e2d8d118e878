/** The drawn features the info controls look at, the feature-state store's
    records, and the two foreign geometry primitives the controls call. */
module Features {

  datatype Option<+T> = None | Some(value: T)

  /** A feature id as the drawing widget assigns it. */
  type Id = string

  /** One GeoJSON position: a fixed-arity tuple of numbers (2D or 3D). */
  type Position = seq<real>

  /** The geometry kinds the drawing widget produces; only Point and
      LineString are supported by any control, Polygon stands for the rest. */
  datatype Geometry =
    | Point(position: Position)
    | LineString(coordinates: seq<Position>)
    | Polygon(rings: seq<seq<Position>>)

  datatype Properties = Properties(name: Option<string>)

  /** A feature as the drawing widget hands it out: it always carries its id. */
  datatype Feature = Feature(id: Id, geometry: Geometry, properties: Properties)

  /** A feature object whose `id` member was deleted, ready for the widget's `add`. */
  datatype Draft = Draft(geometry: Geometry, properties: Properties)

  /** The record kept per feature id in the map's feature-state store. */
  datatype FeatureState = FeatureState(name: Option<string>)

  /** The foreign primitives: turf `length` of a geometry in a unit, turf
      `midpoint` of two positions, and the locale formatting of a number. */
  datatype Geo = Geo(
    length: (Geometry, string) -> real,
    midpoint: (Position, Position) -> Position,
    format: real -> string)

  /** getFeatureName: a state handed in wins over the store; otherwise the
      store's record for the feature's id; no record gives no name. */
  function GetFeatureName(f: Feature, state: Option<FeatureState>,
                          store: map<Id, FeatureState>): (r: Option<string>)
    ensures state.Some? ==> r == state.value.name
    ensures state.None? && f.id in store ==> r == store[f.id].name
    ensures state.None? && f.id !in store ==> r == None
  {
    match state
    case Some(s) => s.name
    case None => if f.id in store then store[f.id].name else None
  }

  /** `Object.assign({}, f)` followed by `delete copy.id`. */
  function WithoutId(f: Feature): (d: Draft)
    ensures d.geometry == f.geometry && d.properties == f.properties
  {
    Draft(f.geometry, f.properties)
  }

  /** The widget's `add` of a draft under the id it assigns. */
  function Added(d: Draft, id: Id): (f: Feature)
    ensures f.id == id && f.geometry == d.geometry && f.properties == d.properties
  {
    Feature(id, d.geometry, d.properties)
  }

  /** Stripping the id and adding the copy back loses nothing but the id:
      under the old id it is the same feature, under a new id it differs
      from the original only in its id. */
  lemma DuplicateKeepsAllButId(f: Feature, newId: Id)
    ensures Added(WithoutId(f), f.id) == f
    ensures Added(WithoutId(f), newId) == f.(id := newId)
    ensures newId != f.id ==> Added(WithoutId(f), newId) != f
  {
  }
}
