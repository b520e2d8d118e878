/** The three controls' `isSupportedFeatures` predicates and what they
    accept together. */
module Classify {
  import opened Features

  /** Which of the three info controls: LineStringInfoControl,
      PointInfoControl or MultiLineInfoControl. */
  datatype Kind = LineInfo | PointInfo | MultiLineInfo

  /** The line control's isSupportedFeatures: one feature, a LineString. */
  predicate IsSupportedLine(fs: seq<Feature>)
    ensures IsSupportedLine(fs) <==> |fs| == 1 && LineCount(fs) == 1
  {
    assert |fs| == 1 ==> fs[..0] == [];
    |fs| == 1 && fs[0].geometry.LineString?
  }

  /** The point control's isSupportedFeatures: one feature, a Point. */
  predicate IsSupportedPoint(fs: seq<Feature>)
    ensures IsSupportedPoint(fs) <==> |fs| == 1 && PointCount(fs) == 1
  {
    assert |fs| == 1 ==> fs[..0] == [];
    |fs| == 1 && fs[0].geometry.Point?
  }

  /** The multi-line control's isSupportedFeatures: two features, every
      one a LineString. */
  predicate IsSupportedMultiLine(fs: seq<Feature>)
    ensures IsSupportedMultiLine(fs) <==> |fs| == 2 && LineCount(fs) == 2
  {
    LineCountAll(fs);
    |fs| == 2 && forall f <- fs :: f.geometry.LineString?
  }

  /** The classifier of the control of the given kind. Whatever it
      accepts is non-empty and holds only Points and LineStrings. */
  predicate IsSupported(kind: Kind, fs: seq<Feature>)
    ensures IsSupported(kind, fs) ==>
      fs != [] && forall f <- fs :: f.geometry.Point? || f.geometry.LineString?
  {
    match kind
    case LineInfo => IsSupportedLine(fs)
    case PointInfo => IsSupportedPoint(fs)
    case MultiLineInfo => IsSupportedMultiLine(fs)
  }

  /** Number of LineString features in a list: a reference definition the
      multi-line classifier is checked against. */
  function LineCount(fs: seq<Feature>): (n: nat)
    ensures n <= |fs|
  {
    if fs == [] then 0
    else LineCount(fs[..|fs| - 1]) + (if fs[|fs| - 1].geometry.LineString? then 1 else 0)
  }

  /** Number of Point features in a list, the reference for the point
      classifier. */
  function PointCount(fs: seq<Feature>): (n: nat)
    ensures n <= |fs|
  {
    if fs == [] then 0
    else PointCount(fs[..|fs| - 1]) + (if fs[|fs| - 1].geometry.Point? then 1 else 0)
  }

  /** A list has only LineStrings exactly when every member is counted. */
  lemma {:induction false} LineCountAll(fs: seq<Feature>)
    ensures LineCount(fs) == |fs| <==> forall f <- fs :: f.geometry.LineString?
  {
    if fs != [] {
      var init := fs[..|fs| - 1];
      LineCountAll(init);
      assert fs == init + [fs[|fs| - 1]];
      if LineCount(fs) == |fs| {
        assert LineCount(init) == |init|;
      }
    }
  }

  /** What the three controls accept between them: one Point, one
      LineString, or two LineStrings; the empty list and everything else
      is rejected by all three. */
  lemma SupportedShapes(fs: seq<Feature>)
    ensures (exists k: Kind :: IsSupported(k, fs)) <==>
      (|fs| == 1 && (fs[0].geometry.Point? || fs[0].geometry.LineString?)) ||
      (|fs| == 2 && fs[0].geometry.LineString? && fs[1].geometry.LineString?)
  {
    if |fs| == 1 && fs[0].geometry.Point? {
      assert IsSupported(PointInfo, fs);
    } else if |fs| == 1 && fs[0].geometry.LineString? {
      assert IsSupported(LineInfo, fs);
    } else if |fs| == 2 && fs[0].geometry.LineString? && fs[1].geometry.LineString? {
      assert IsSupported(MultiLineInfo, fs);
    }
  }

  /** At most one control shows for any feature list. */
  lemma AtMostOneControl(fs: seq<Feature>, k1: Kind, k2: Kind)
    requires IsSupported(k1, fs) && IsSupported(k2, fs)
    ensures k1 == k2
  {
  }

  /** No control accepts the empty list. */
  lemma EmptyRejected(k: Kind)
    ensures !IsSupported(k, [])
  {
  }
}
