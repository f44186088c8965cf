/** The shared `folium.Map` `m`, the city-marker loop that fills it and the
    upload handler that adds one GeoJson layer to it (as1.py:115-165,
    as1.py:221-330). */
module FoliumMap {
  import opened Wrappers
  import opened Upload
  import opened GeoData
  import opened Layer
  import opened Markers

  /** What `.add_to(m)` puts on the map. */
  datatype MapChild = MarkerChild(marker: Marker) | GeoJsonChild(layer: GeoJsonLayer)

  function MarkerChildren(markers: seq<Marker>): seq<MapChild>
  {
    seq(|markers|, i requires 0 <= i < |markers| => MarkerChild(markers[i]))
  }

  /** How one call of `handle_upload` ends: a layer added to the map, nothing
      done (a name no branch accepts), or an exception from `read_file` or
      `to_crs` propagating out of it. */
  datatype UploadOutcome = Mounted(layer: GeoJsonLayer) | Skipped | Raised(message: string)

  /** `handle_upload(uploaded_file)` as a value. On the GeoJSON path the layer
      shows the frame exactly as read, CRS included; on the shapefile path it
      shows the frame read from the staged copy, tagged EPSG:4326 with its
      columns unchanged; a frame read there without a CRS, or in EPSG:4326,
      is mounted with its features as read. An exception can only come from
      reading, or on the shapefile path from the transform. Both paths use
      the same constant highlight style. */
  function ProcessUpload(file: UploadedFile, read: Reader, transform: Transform): (o: UploadOutcome)
    ensures o.Skipped? <==> Classify(file.name) == NoBranch
    ensures o.Mounted? ==> o.layer.popup.fields == o.layer.tooltip.fields == FieldList(o.layer.data.columns)
    ensures o.Mounted? ==> forall f :: o.layer.highlight(f) == Style("#ff0000", "#000000", 1, 0.5)
    ensures IsGeoJsonName(file.name) && o.Mounted? ==>
      read(Buffer(file)) == Ok(o.layer.data) && o.layer.tooltip.style == GeoJsonTooltipStyle
    ensures IsGeoJsonName(file.name) && o.Raised? ==> read(Buffer(file)) == Err(o.message)
    ensures IsShapefileName(file.name) && o.Mounted? ==>
      o.layer.data.crs == Some(Wgs84)
      && read(TempFile(file.name, file.content)).Ok?
      && o.layer.data.columns == read(TempFile(file.name, file.content)).value.columns
      && o.layer.tooltip.style == ShapefileTooltipStyle
      && NormalizeCrs(read(TempFile(file.name, file.content)).value, transform) == Ok(o.layer.data)
    ensures (IsShapefileName(file.name) && read(TempFile(file.name, file.content)).Ok?
             && read(TempFile(file.name, file.content)).value.crs.GetOr(Wgs84) == Wgs84) ==>
      o.Mounted? && o.layer.data == read(TempFile(file.name, file.content)).value.(crs := Some(Wgs84))
    ensures IsShapefileName(file.name) && o.Raised? ==>
      read(TempFile(file.name, file.content)) == Err(o.message)
      || (read(TempFile(file.name, file.content)).Ok?
          && NormalizeCrs(read(TempFile(file.name, file.content)).value, transform) == Err(o.message))
  {
    match Classify(file.name)
    case NoBranch => Skipped
    case InMemory =>
      (match read(Buffer(file))
       case Err(e) => Raised(e)
       case Ok(gdf) => Mounted(BuildLayer(gdf, GeoJsonTooltipStyle)))
    case Staged =>
      (match read(TempFile(file.name, file.content))
       case Err(e) => Raised(e)
       case Ok(gdf) =>
         match NormalizeCrs(gdf, transform)
         case Err(e) => Raised(e)
         case Ok(normalized) => Mounted(BuildLayer(normalized, ShapefileTooltipStyle)))
  }

  /** What an upload adds to the map: one GeoJson layer, or nothing. */
  function MountedChildren(o: UploadOutcome): seq<MapChild>
  {
    if o.Mounted? then [GeoJsonChild(o.layer)] else []
  }

  function RaisedMessage(o: UploadOutcome): Option<string>
  {
    if o.Raised? then Some(o.message) else None
  }

  /** A name that neither test accepts adds nothing and raises nothing. */
  lemma UnsupportedNameChangesNothing(file: UploadedFile, read: Reader, transform: Transform)
    requires !IsGeoJsonName(file.name) && !IsShapefileName(file.name)
    ensures MountedChildren(ProcessUpload(file, read, transform)) == []
    ensures RaisedMessage(ProcessUpload(file, read, transform)) == None
  {
  }

  /** The number of GeoJson layers among the map's children. */
  function LayerCount(children: seq<MapChild>): nat
  {
    if children == [] then 0
    else LayerCount(children[..|children| - 1]) + (if children[|children| - 1].GeoJsonChild? then 1 else 0)
  }

  lemma {:induction false} LayerCountAppend(a: seq<MapChild>, b: seq<MapChild>)
    ensures LayerCount(a + b) == LayerCount(a) + LayerCount(b)
  {
    if b == [] {
      assert a + b == a;
    } else {
      assert (a + b)[..|a + b| - 1] == a + b[..|b| - 1];
      LayerCountAppend(a, b[..|b| - 1]);
    }
  }

  lemma {:induction false} MarkersHoldNoLayer(markers: seq<Marker>)
    ensures LayerCount(MarkerChildren(markers)) == 0
  {
    if markers != [] {
      var init := markers[..|markers| - 1];
      assert MarkerChildren(markers)[..|markers| - 1] == MarkerChildren(init);
      MarkersHoldNoLayer(init);
    }
  }

  /** A successful upload adds exactly one layer; any other outcome none. */
  lemma UploadAddsAtMostOneLayer(before: seq<MapChild>, o: UploadOutcome)
    ensures LayerCount(before + MountedChildren(o)) == LayerCount(before) + (if o.Mounted? then 1 else 0)
  {
    LayerCountAppend(before, MountedChildren(o));
    if o.Mounted? {
      assert MountedChildren(o)[..0] == [];
    }
  }

  /** The map `m`: its children in the order they were added. */
  class Map {
    var children: seq<MapChild>

    constructor ()
      ensures children == []
    {
      children := [];
    }

    /** `child.add_to(m)`. */
    method AddChild(child: MapChild)
      modifies this
      ensures children == old(children) + [child]
    {
      children := children + [child];
    }

    /** The loop over `df.iterrows()` (as1.py:130-165): one marker per row,
        appended in row order after what the map already holds. */
    method AddCityMarkers(rows: seq<CityRow>)
      modifies this
      ensures children == old(children) + MarkerChildren(CityMarkers(rows))
    {
      var i := 0;
      while i < |rows|
        invariant 0 <= i <= |rows|
        invariant children == old(children) + MarkerChildren(CityMarkers(rows[..i]))
      {
        assert rows[..i + 1][..i] == rows[..i];
        AddChild(MarkerChild(CityMarker(rows[i])));
        i := i + 1;
      }
      assert rows[..|rows|] == rows;
    }

    /** `handle_upload(uploaded_file)` (as1.py:221-319): dispatch on the name,
        read, on the shapefile path assign the default CRS in place and
        convert, then add the layer. Everything already on the map stays, in
        order; at most one child is added; an exception leaves the map as it
        was. */
    method HandleUpload(file: UploadedFile, read: Reader, transform: Transform) returns (raised: Option<string>)
      modifies this
      ensures children == old(children) + MountedChildren(ProcessUpload(file, read, transform))
      ensures raised == RaisedMessage(ProcessUpload(file, read, transform))
    {
      raised := None;
      if EndsWith(file.name, ".geojson") || EndsWith(file.name, ".json") {
        var loaded := read(Buffer(file));
        if loaded.Err? {
          return Some(loaded.error);
        }
        var gdf := loaded.value;
        AddChild(GeoJsonChild(BuildLayer(gdf, GeoJsonTooltipStyle)));
      } else if EndsWith(file.name, ".shp") {
        var loaded := read(TempFile(file.name, file.content));
        if loaded.Err? {
          return Some(loaded.error);
        }
        var gdf := loaded.value;
        if gdf.crs.None? {
          gdf := gdf.(crs := Some(Wgs84));
        }
        var converted := ToCrs(gdf, Wgs84, transform);
        if converted.Err? {
          return Some(converted.error);
        }
        gdf := converted.value;
        AddChild(GeoJsonChild(BuildLayer(gdf, ShapefileTooltipStyle)));
      }
    }
  }

  /** The script from the map onwards, without its display-only parts: the
      city markers, then `handle_upload` only if a file was uploaded
      (as1.py:329-330). The map ends with one GeoJson layer exactly when an
      upload was mounted. */
  method RunDashboard(rows: seq<CityRow>, upload: Option<UploadedFile>, read: Reader, transform: Transform)
    returns (m: Map, raised: Option<string>)
    ensures fresh(m)
    ensures upload.None? ==> m.children == MarkerChildren(CityMarkers(rows)) && raised == None
    ensures upload.Some? ==>
      m.children == MarkerChildren(CityMarkers(rows)) + MountedChildren(ProcessUpload(upload.value, read, transform))
      && raised == RaisedMessage(ProcessUpload(upload.value, read, transform))
    ensures LayerCount(m.children) == (if upload.Some? && ProcessUpload(upload.value, read, transform).Mounted? then 1 else 0)
  {
    m := new Map();
    m.AddCityMarkers(rows);
    MarkersHoldNoLayer(CityMarkers(rows));
    raised := None;
    if upload.Some? {
      raised := m.HandleUpload(upload.value, read, transform);
      UploadAddsAtMostOneLayer(MarkerChildren(CityMarkers(rows)), ProcessUpload(upload.value, read, transform));
    } else {
      assert m.children == MarkerChildren(CityMarkers(rows));
    }
  }
}
