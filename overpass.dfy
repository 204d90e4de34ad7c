/** `query_overpass`: the Overpass QL query for one route segment, whose polygon
    filter lists the segment's points as "a b" pairs. */
module Overpass {

  import opened Values
  import Text

  /** f"{lon} {lat}" for one `lat, lon` unpacked from the segment: the pair's
      second component is written first. */
  function PointText(p: Point, show: real -> string): string
  {
    show(p.y) + " " + show(p.x)
  }

  function PointTexts(segment: seq<Point>, show: real -> string): (r: seq<string>)
    ensures |r| == |segment|
    ensures forall i :: 0 <= i < |segment| ==> r[i] == PointText(segment[i], show)
  {
    seq(|segment|, i requires 0 <= i < |segment| => PointText(segment[i], show))
  }

  /** The `poly:` argument: the point texts joined by single spaces. */
  function Polygon(segment: seq<Point>, show: real -> string): string
  {
    Text.Join(PointTexts(segment, show), ' ')
  }

  const QueryHead: string := "\n    [out:json];\n    node["
  const Filter: string := "\"amenity\"=\"fuel\"](poly:\""
  const QueryTail: string := ");\n    out body;\n    "

  /** The query text: every fuel-station node inside the segment's polygon. */
  function Query(segment: seq<Point>, show: real -> string): string
  {
    QueryText(Polygon(segment, show))
  }

  function QueryText(polygon: string): string
  {
    QueryHead + Filter + polygon + "\"" + QueryTail
  }

  /** The numbers of a segment in the order the polygon writes them: for each
      point its second component, then its first. */
  function Components(segment: seq<Point>, show: real -> string): (r: seq<string>)
    ensures |r| == 2 * |segment|
    ensures forall i :: 0 <= i < |segment| ==> r[2 * i] == show(segment[i].y) && r[2 * i + 1] == show(segment[i].x)
  {
    if segment == [] then []
    else [show(segment[0].y), show(segment[0].x)] + Components(segment[1..], show)
  }

  /** Reading the polygon back: split on spaces, it is exactly the components,
      two per point with the second first, so no point is lost or reordered and
      each pair is written swapped. */
  lemma PolygonTokens(segment: seq<Point>, show: real -> string)
    requires |segment| >= 1
    requires forall x :: ' ' !in show(x)
    ensures Text.Split(Polygon(segment, show), ' ') == Components(segment, show)
    ensures |Text.Split(Polygon(segment, show), ' ')| == 2 * |segment|
  {
    JoinPointTexts(segment, show);
    ComponentsFree(segment, show, ' ');
    Text.SplitJoin(Components(segment, show), ' ');
  }

  lemma {:induction false} ComponentsFree(segment: seq<Point>, show: real -> string, c: char)
    requires forall x :: c !in show(x)
    ensures forall i :: 0 <= i < |Components(segment, show)| ==> c !in Components(segment, show)[i]
    decreases |segment|
  {
    if segment != [] {
      ComponentsFree(segment[1..], show, c);
    }
  }

  lemma {:induction false} JoinPointTexts(segment: seq<Point>, show: real -> string)
    requires |segment| >= 1
    ensures Polygon(segment, show) == Text.Join(Components(segment, show), ' ')
    decreases |segment|
  {
    var p := segment[0];
    var cs := Components(segment, show);
    var sy, sx := show(p.y), show(p.x);
    if |segment| == 1 {
      assert cs == [sy, sx];
      assert Text.Join(cs[1..], ' ') == sx;
    } else {
      var rest := segment[1..];
      JoinPointTexts(rest, show);
      var texts := PointTexts(segment, show);
      assert texts[1..] == PointTexts(rest, show);
      var rs := Components(rest, show);
      var tail := Text.Join(rs, ' ');
      assert Polygon(segment, show) == (sy + " " + sx) + " " + tail;
      assert cs == [sy, sx] + rs;
      assert cs[1..] == [sx] + rs;
      assert cs[1..][1..] == rs;
      assert Text.Join(cs, ' ') == (sy + " ") + ((sx + " ") + tail);
      Text.Assoc(sy + " ", sx, " ");
      Text.Assoc(sy + " ", sx + " ", tail);
    }
  }

  /** The polygon is the only quoted argument of the `poly:` filter: split on
      double quotes, the query reads `amenity`, `=`, `fuel`, `](poly:`, then the
      polygon. */
  lemma QueryQuotes(segment: seq<Point>, show: real -> string)
    requires forall x :: '"' !in show(x)
    ensures Text.Split(Query(segment, show), '"')
         == [QueryHead, "amenity", "=", "fuel", "](poly:", Polygon(segment, show), QueryTail]
  {
    var polygon := Polygon(segment, show);
    PolygonQuoteFree(segment, show);
    QuotePartsFree(polygon);
    QueryParts(polygon);
    Text.SplitJoin(QuoteParts(polygon), '"');
  }

  lemma PolygonQuoteFree(segment: seq<Point>, show: real -> string)
    requires forall x :: '"' !in show(x)
    ensures '"' !in Polygon(segment, show)
  {
    var texts := PointTexts(segment, show);
    forall i | 0 <= i < |texts| ensures '"' !in texts[i] {
      assert texts[i] == show(segment[i].y) + " " + show(segment[i].x);
    }
    Text.JoinFree(texts, ' ', '"');
  }

  lemma QuotePartsFree(polygon: string)
    requires '"' !in polygon
    ensures forall i :: 0 <= i < |QuoteParts(polygon)| ==> '"' !in QuoteParts(polygon)[i]
  {
    LiteralsQuoteFree();
  }

  lemma LiteralsQuoteFree()
    ensures '"' !in QueryHead && '"' !in QueryTail
    ensures '"' !in "amenity" && '"' !in "=" && '"' !in "fuel" && '"' !in "](poly:"
  {
  }

  function QuoteParts(polygon: string): seq<string>
  {
    [QueryHead, "amenity", "=", "fuel", "](poly:", polygon, QueryTail]
  }

  lemma QueryParts(polygon: string)
    ensures Text.Join(QuoteParts(polygon), '"') == QueryText(polygon)
  {
    FilterPieces();
    JoinAround(QueryHead, "amenity", "=", "fuel", "](poly:", polygon, QueryTail, '"', Filter);
  }

  lemma FilterPieces()
    ensures Filter == ['"'] + "amenity" + ['"'] + "=" + ['"'] + "fuel" + ['"'] + "](poly:" + ['"']
  {
  }

  /** Joining seven pieces puts the separator between neighbours; the middle
      five separators and four pieces are the `filter`. */
  lemma JoinAround(h: string, a: string, b: string, c: string, d: string, p: string, t: string, q: char, filter: string)
    requires filter == [q] + a + [q] + b + [q] + c + [q] + d + [q]
    ensures Text.Join([h, a, b, c, d, p, t], q) == h + filter + p + [q] + t
  {
    assert Text.Join([h], q) == h;
    Text.JoinSnoc([h], a, q);
    assert [h] + [a] == [h, a];
    Text.JoinSnoc([h, a], b, q);
    assert [h, a] + [b] == [h, a, b];
    Text.JoinSnoc([h, a, b], c, q);
    assert [h, a, b] + [c] == [h, a, b, c];
    Text.JoinSnoc([h, a, b, c], d, q);
    assert [h, a, b, c] + [d] == [h, a, b, c, d];
    Text.JoinSnoc([h, a, b, c, d], p, q);
    assert [h, a, b, c, d] + [p] == [h, a, b, c, d, p];
    Text.JoinSnoc([h, a, b, c, d, p], t, q);
    assert [h, a, b, c, d, p] + [t] == [h, a, b, c, d, p, t];
    PrependFilter(h, a, b, c, d, q);
  }

  /** Regrouping `h + filter` into the left-nested join of its pieces. */
  lemma PrependFilter(h: string, a: string, b: string, c: string, d: string, q: char)
    ensures h + ([q] + a + [q] + b + [q] + c + [q] + d + [q])
         == h + [q] + a + [q] + b + [q] + c + [q] + d + [q]
  {
    var f1 := [q];
    var f2 := f1 + a;
    var f3 := f2 + [q];
    var f4 := f3 + b;
    var f5 := f4 + [q];
    var f6 := f5 + c;
    var f7 := f6 + [q];
    var f8 := f7 + d;
    Text.Assoc(h, f1, a);
    Text.Assoc(h, f2, [q]);
    Text.Assoc(h, f3, b);
    Text.Assoc(h, f4, [q]);
    Text.Assoc(h, f5, c);
    Text.Assoc(h, f6, [q]);
    Text.Assoc(h, f7, d);
    Text.Assoc(h, f8, [q]);
  }
}
