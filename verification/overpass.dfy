/** The Overpass QL query that the two OpenStreetMap scripts send
    (build_overpass_query, which update_osm_zones.py and xy.py define identically). */
module Overpass {
  import opened Common

  /** How an f-string prints a float (Python's repr), which the model does not spell
      out. */
  type FloatFormat = real -> string

  /** (south, west, north, east) in decimal degrees. */
  datatype BoundingBox = BoundingBox(south: real, west: real, north: real, east: real)

  predicate IsComma(c: char) {
    c == ','
  }

  /** The parts with a comma between each two. */
  function Join(parts: seq<string>): string
    requires parts != []
    decreases |parts|
  {
    if |parts| == 1 then parts[0] else parts[0] + [','] + Join(parts[1..])
  }

  /** The four components comma-joined, in the order given. */
  function BboxString(b: BoundingBox, fmt: FloatFormat): string {
    Join([fmt(b.south), fmt(b.west), fmt(b.north), fmt(b.east)])
  }

  const Header: string := "[out:json][timeout:60];(\n"
  const Footer: string := ");out body;>;out skel qt;"

  /** The query line for one tag filter. */
  function TagLine(tag: string, bbox: string): string {
    "  " + tag + "(" + bbox + ");\n"
  }

  /** The lines for the tags, in order. */
  function TagLines(tags: seq<string>, bbox: string): string
    decreases |tags|
  {
    if tags == [] then ""
    else TagLines(tags[..|tags| - 1], bbox) + TagLine(tags[|tags| - 1], bbox)
  }

  /** build_overpass_query: the header, one line per tag, then the footer. */
  method BuildOverpassQuery(bbox: BoundingBox, tags: seq<string>, fmt: FloatFormat) returns (body: string)
    ensures body == Header + TagLines(tags, BboxString(bbox, fmt)) + Footer
    ensures tags == [] ==> body == Header + Footer
  {
    var bboxStr := BboxString(bbox, fmt);
    body := Header;
    for i := 0 to |tags|
      invariant body == Header + TagLines(tags[..i], bboxStr)
    {
      assert tags[..i + 1][..i] == tags[..i];
      body := body + TagLine(tags[i], bboxStr);
    }
    assert tags[..|tags|] == tags;
    body := body + Footer;
  }

  /** The lines of two tag lists one after the other. */
  lemma {:induction false} TagLinesAppend(a: seq<string>, b: seq<string>, bbox: string)
    ensures TagLines(a + b, bbox) == TagLines(a, bbox) + TagLines(b, bbox)
    decreases |b|
  {
    if b != [] {
      var n := |b| - 1;
      assert (a + b)[..|a + b| - 1] == a + b[..n];
      TagLinesAppend(a, b[..n], bbox);
      assert (a + b)[|a + b| - 1] == b[n];
    } else {
      assert a + b == a;
    }
  }

  /** Tag i contributes its line right after the lines of the tags before it. */
  lemma TagLineInOrder(tags: seq<string>, bbox: string, i: nat)
    requires i < |tags|
    ensures TagLines(tags, bbox) == TagLines(tags[..i], bbox) + TagLine(tags[i], bbox) + TagLines(tags[i + 1..], bbox)
  {
    assert tags == tags[..i] + [tags[i]] + tags[i + 1..];
    TagLinesAppend(tags[..i] + [tags[i]], tags[i + 1..], bbox);
    TagLinesAppend(tags[..i], [tags[i]], bbox);
    assert TagLines([tags[i]], bbox) == TagLine(tags[i], bbox) by {
      assert [tags[i]][..0] == [];
    }
  }

  /** Splitting a comma-joined list at its commas gives the parts back, when no part
      is empty or holds a comma. */
  lemma {:induction false} SplitJoin(parts: seq<string>)
    requires parts != []
    requires forall i :: 0 <= i < |parts| ==> parts[i] != []
    requires forall i, j :: 0 <= i < |parts| && 0 <= j < |parts[i]| ==> !IsComma(parts[i][j])
    ensures Pieces(Join(parts), IsComma) == parts
    decreases |parts|
  {
    if |parts| == 1 {
      PiecesOfPlain(parts[0], IsComma);
    } else {
      SplitJoin(parts[1..]);
      PiecesOfJoined(parts[0], ',', Join(parts[1..]), IsComma);
    }
  }

  /** The bbox string names the four components, in order: splitting it at its
      commas gives them back when none prints empty or with a comma. */
  lemma BboxStringSplits(b: BoundingBox, fmt: FloatFormat)
    requires forall c :: c in [b.south, b.west, b.north, b.east] ==> fmt(c) != []
    requires forall c, j :: c in [b.south, b.west, b.north, b.east] && 0 <= j < |fmt(c)| ==> !IsComma(fmt(c)[j])
    ensures Pieces(BboxString(b, fmt), IsComma) == [fmt(b.south), fmt(b.west), fmt(b.north), fmt(b.east)]
  {
    var parts := [fmt(b.south), fmt(b.west), fmt(b.north), fmt(b.east)];
    forall i | 0 <= i < 4 ensures parts[i] != [] && forall j :: 0 <= j < |parts[i]| ==> !IsComma(parts[i][j]) {
      assert [b.south, b.west, b.north, b.east][i] in [b.south, b.west, b.north, b.east];
    }
    SplitJoin(parts);
  }
}
