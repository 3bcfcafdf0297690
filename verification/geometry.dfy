/**
 * Android geometry values (`Rect`, `Point`, `PointF`) and the way the
 * detectors write them into a document: a bounding box as four doubles and
 * a point as a two-element `double[]`. Shared by the barcode, face and text
 * transcoders.
 */
module Geometry {
  import opened Wrappers
  import opened Document

  /** `android.graphics.Rect`; `width()` and `height()` are derived. */
  datatype Rect = Rect(left: int, top: int, right: int, bottom: int) {
    function Width(): int { right - left }
    function Height(): int { bottom - top }
  }

  /** `android.graphics.Point` (integer coordinates). */
  datatype Point = Point(x: int, y: int)

  /** `android.graphics.PointF` (float coordinates, only copied). */
  datatype PointF = PointF(x: real, y: real)

  const BoundsKeys: set<string> := {"left", "top", "width", "height"}

  /** The four entries `left`, `top`, `width`, `height`, each the `(double)` of the int. */
  function BoundsFields(r: Rect): (m: map<string, Doc>)
    ensures m.Keys == BoundsKeys
    ensures forall k :: k in m ==> m[k].Double?
  {
    map["left" := Double(r.left as real)]["top" := Double(r.top as real)]
       ["width" := Double(r.Width() as real)]["height" := Double(r.Height() as real)]
  }

  /**
   * `if (bounds != null) { put left/top/width/height }`: the entries of an
   * optional box added to `m`; an absent box leaves `m` as it is.
   */
  function PutBounds(m: map<string, Doc>, box: Option<Rect>): (m': map<string, Doc>)
    ensures box.None? ==> m' == m
    ensures box.Some? ==> m'.Keys == m.Keys + BoundsKeys
    ensures box.Some? ==> forall k :: k in BoundsKeys ==> m'[k] == BoundsFields(box.value)[k]
    ensures forall k :: k in m && k !in BoundsKeys ==> k in m' && m'[k] == m[k]
  {
    match box
    case None => m
    case Some(r) => m + BoundsFields(r)
  }

  /** Reads a box back from the four entries; `None` when one is missing or not a double. */
  function DecodeBounds(m: map<string, Doc>): Option<Rect>
  {
    if forall k :: k in BoundsKeys ==> k in m && m[k].Double?
    then
      var left := m["left"].d.Floor;
      var top := m["top"].d.Floor;
      Some(Rect(left, top, left + m["width"].d.Floor, top + m["height"].d.Floor))
    else None
  }

  /** The four entries determine the box: no information about it is lost. */
  lemma BoundsRoundTrip(r: Rect)
    ensures DecodeBounds(BoundsFields(r)) == Some(r)
  {
    var m := BoundsFields(r);
    assert m["left"] == Double(r.left as real);
    assert m["top"] == Double(r.top as real);
    assert m["width"] == Double(r.Width() as real);
    assert m["height"] == Double(r.Height() as real);
  }

  /** `new double[] {(double) point.x, (double) point.y}`. */
  function PointDoc(p: Point): Doc
  {
    Doubles([p.x as real, p.y as real])
  }

  /** `new double[] {point.x, point.y}` for a float point. */
  function PointFDoc(p: PointF): Doc
  {
    Doubles([p.x, p.y])
  }

  /** The list of corner points, in order; an empty list when the array is null. */
  function CornerPointsDoc(corners: Option<seq<Point>>): Doc
  {
    match corners
    case None => List([])
    case Some(ps) => List(seq(|ps|, i requires 0 <= i < |ps| => PointDoc(ps[i])))
  }

  /**
   * The corner-point loop shared by the barcode and text transcoders: a new
   * list, one `double[]` appended per corner point when the array is not null.
   */
  method CornerPointList(corners: Option<seq<Point>>) returns (d: Doc)
    ensures d == CornerPointsDoc(corners)
    ensures d.List? && |d.items| == (if corners.Some? then |corners.value| else 0)
  {
    var points: seq<Doc> := [];
    if corners.Some? {
      var ps := corners.value;
      var i := 0;
      while i < |ps|
        invariant 0 <= i <= |ps|
        invariant |points| == i
        invariant forall j :: 0 <= j < i ==> points[j] == PointDoc(ps[j])
      {
        points := points + [PointDoc(ps[i])];
        i := i + 1;
      }
    }
    d := List(points);
  }

  /** Reads a point list back; `None` unless every item is a two-element double array. */
  function DecodePoints(d: Doc): Option<seq<Point>>
  {
    if d.List? && forall i :: 0 <= i < |d.items| ==> d.items[i].Doubles? && |d.items[i].values| == 2
    then Some(seq(|d.items|, i requires 0 <= i < |d.items| && d.items[i].Doubles? && |d.items[i].values| == 2 =>
                Point(d.items[i].values[0].Floor, d.items[i].values[1].Floor)))
    else None
  }

  /**
   * The corner points can be read back from the list, in order; a null
   * array and an empty one both read back as the empty list.
   */
  lemma PointsRoundTrip(corners: Option<seq<Point>>)
    ensures DecodePoints(CornerPointsDoc(corners)) == Some(if corners.Some? then corners.value else [])
  {
    var d := CornerPointsDoc(corners);
    var expected := if corners.Some? then corners.value else [];
    assert |d.items| == |expected|;
    forall i | 0 <= i < |d.items|
      ensures d.items[i] == PointDoc(expected[i])
    {
    }
    assert DecodePoints(d).Some?;
    assert DecodePoints(d).value == expected;
  }
}
