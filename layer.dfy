/** The GeoJson layer `handle_upload` builds from a data frame: the field
    list shared by popup and tooltip, and the constant highlight style
    (as1.py:231-249, as1.py:300-318). */
module Layer {
  import opened GeoData

  /** The column name the comprehension leaves out. */
  const GeometryColumn: string := "geometry"

  /** `[col for col in gdf.columns if col != "geometry"]`
      (as1.py:241, 244, 310, 313): every column except those equal to
      "geometry", with the multiplicity of each kept. */
  function FieldList(columns: seq<string>): (fields: seq<string>)
    ensures GeometryColumn !in fields
    ensures forall c :: c in fields <==> c in columns && c != GeometryColumn
    ensures multiset(fields) == multiset(columns)[GeometryColumn := 0]
  {
    if columns == [] then []
    else
      assert columns == [columns[0]] + columns[1..];
      (if columns[0] == GeometryColumn then [] else [columns[0]]) + FieldList(columns[1..])
  }

  /** `xs` is `ys` with some entries dropped and the rest in their order. */
  predicate IsSubsequence<T(==)>(xs: seq<T>, ys: seq<T>)
    decreases |ys|
  {
    if xs == [] then true
    else if ys == [] then false
    else if xs[0] == ys[0] then IsSubsequence(xs[1..], ys[1..])
    else IsSubsequence(xs, ys[1..])
  }

  /** The field list keeps the columns' order. */
  lemma {:induction false} FieldListIsSubsequence(columns: seq<string>)
    ensures IsSubsequence(FieldList(columns), columns)
  {
    if columns != [] {
      FieldListIsSubsequence(columns[1..]);
      var rest := FieldList(columns[1..]);
      if columns[0] == GeometryColumn {
        assert FieldList(columns) == rest;
        if rest != [] {
          assert rest[0] in rest;
        }
      } else {
        assert FieldList(columns) == [columns[0]] + rest;
        assert FieldList(columns)[1..] == rest;
      }
    }
  }

  /** The comprehension works column by column: filtering a concatenation
      concatenates the filtered parts, so nothing is reordered. */
  lemma {:induction false} FieldListAppend(a: seq<string>, b: seq<string>)
    ensures FieldList(a + b) == FieldList(a) + FieldList(b)
  {
    if a != [] {
      assert (a + b)[1..] == a[1..] + b;
      FieldListAppend(a[1..], b);
    } else {
      assert a + b == b;
    }
  }

  /** Without a "geometry" column the field list is all the columns. */
  lemma {:induction false} FieldListWithoutGeometry(columns: seq<string>)
    requires GeometryColumn !in columns
    ensures FieldList(columns) == columns
  {
    if columns != [] {
      assert columns[0] in columns;
      assert forall c :: c in columns[1..] ==> c in columns;
      FieldListWithoutGeometry(columns[1..]);
    }
  }

  /** Filtering twice drops nothing more. */
  lemma FieldListIdempotent(columns: seq<string>)
    ensures FieldList(FieldList(columns)) == FieldList(columns)
  {
    FieldListWithoutGeometry(FieldList(columns));
  }

  /** The dictionary `highlight_function` returns. */
  datatype Style = Style(fillColor: string, color: string, weight: int, fillOpacity: real)

  /** `highlight_function(feature)` (as1.py:231-237, identical at
      as1.py:300-306): the feature is ignored. */
  function HighlightFunction(feature: Feature): (style: Style)
    ensures style.fillColor == "#ff0000" && style.color == "#000000"
    ensures style.weight == 1 && style.fillOpacity == 0.5
  {
    Style("#ff0000", "#000000", 1, 0.5)
  }

  /** The `style` string of the tooltip on the GeoJSON path (as1.py:245-248). */
  const GeoJsonTooltipStyle: string :=
    "background-color: grey; color: white; font-family:\"\n         courier new; font-size: 24px; padding: 10px;"

  /** The same string on the shapefile path (as1.py:314-317): its second line
      is indented by one space less. */
  const ShapefileTooltipStyle: string :=
    "background-color: grey; color: white; font-family:\"\n        courier new; font-size: 24px; padding: 10px;"

  datatype GeoJsonPopup = GeoJsonPopup(fields: seq<string>)

  datatype GeoJsonTooltip = GeoJsonTooltip(fields: seq<string>, style: string)

  /** A `folium.GeoJson` layer with its highlight function and the one popup
      and one tooltip attached to it. */
  datatype GeoJsonLayer = GeoJsonLayer(
    data: GeoDataFrame,
    highlight: Feature -> Style,
    popup: GeoJsonPopup,
    tooltip: GeoJsonTooltip)

  /** Lines 231-249 (and 300-318): the layer over the frame, with popup and
      tooltip given the same field list, which is the frame's columns minus
      "geometry" in their order, and a highlight that is the same for every
      feature. */
  function BuildLayer(gdf: GeoDataFrame, tooltipStyle: string): (layer: GeoJsonLayer)
    ensures layer.data == gdf
    ensures layer.popup.fields == layer.tooltip.fields == FieldList(gdf.columns)
    ensures forall c :: c in layer.popup.fields <==> c in gdf.columns && c != GeometryColumn
    ensures IsSubsequence(layer.popup.fields, gdf.columns)
    ensures GeometryColumn !in gdf.columns ==> layer.popup.fields == gdf.columns
    ensures layer.tooltip.style == tooltipStyle
    ensures forall f :: layer.highlight(f) == Style("#ff0000", "#000000", 1, 0.5)
  {
    FieldListIsSubsequence(gdf.columns);
    var fields := FieldList(gdf.columns);
    assert GeometryColumn !in gdf.columns ==> fields == gdf.columns by {
      if GeometryColumn !in gdf.columns {
        FieldListWithoutGeometry(gdf.columns);
      }
    }
    GeoJsonLayer(
      gdf,
      HighlightFunction,
      GeoJsonPopup(fields),
      GeoJsonTooltip(fields, tooltipStyle))
  }
}
