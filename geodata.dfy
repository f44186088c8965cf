/** The GeoDataFrame that `gpd.read_file` returns, reduced to what the upload
    handler looks at: its column names, its CRS tag and its features. The
    parsing inside `read_file` and the coordinate transform inside `to_crs`
    belong to geopandas and pyproj; they enter the model as parameters. */
module GeoData {
  import opened Wrappers
  import opened Upload

  /** One feature (geometry and attribute values); never inspected here. */
  type Feature(==, !new)

  datatype GeoDataFrame = GeoDataFrame(columns: seq<string>, crs: Option<string>, features: seq<Feature>)

  /** `gpd.read_file`: a data frame, or the exception it raises. */
  type Reader = Source -> Result<GeoDataFrame, string>

  /** The coordinate transform of `to_crs`, from a source to a target CRS:
      the transformed features, or the exception pyproj raises. */
  type Transform = (seq<Feature>, string, string) -> Result<seq<Feature>, string>

  /** The CRS both assigned and converted to on the shapefile path. */
  const Wgs84: string := "EPSG:4326"

  /** What geopandas raises when `to_crs` is called on a frame without a CRS. */
  const NaiveGeometriesError: string := "Cannot transform naive geometries.  Please set a crs on the object first."

  /** `if gdf.crs is None: gdf.crs = "EPSG:4326"` (as1.py:294-295): only a
      missing CRS is filled in; a declared one is kept as it is. */
  function AssignDefaultCrs(gdf: GeoDataFrame): (tagged: GeoDataFrame)
    ensures tagged.crs.Some?
    ensures gdf.crs.Some? ==> tagged == gdf
    ensures gdf.crs.None? ==> tagged.crs == Some(Wgs84)
    ensures tagged.columns == gdf.columns && tagged.features == gdf.features
  {
    if gdf.crs.None? then gdf.(crs := Some(Wgs84)) else gdf
  }

  /** `gdf.to_crs(crs)`: refuses a frame without a CRS and returns a frame
      already in the target CRS as it is; otherwise it transforms the
      features and tags the result with the target CRS. The columns are
      always those of the input. */
  function ToCrs(gdf: GeoDataFrame, crs: string, transform: Transform): (r: Result<GeoDataFrame, string>)
    ensures gdf.crs.None? ==> r == Err(NaiveGeometriesError)
    ensures gdf.crs == Some(crs) ==> r == Ok(gdf)
    ensures gdf.crs.Some? && gdf.crs.value != crs ==>
      (r.Ok? <==> transform(gdf.features, gdf.crs.value, crs).Ok?)
      && (r.Err? ==> r.error == transform(gdf.features, gdf.crs.value, crs).error)
      && (r.Ok? ==> r.value.features == transform(gdf.features, gdf.crs.value, crs).value)
    ensures r.Ok? ==> r.value.crs == Some(crs) && r.value.columns == gdf.columns
  {
    match gdf.crs
    case None => Err(NaiveGeometriesError)
    case Some(from) =>
      if from == crs then Ok(gdf)
      else
        match transform(gdf.features, from, crs)
        case Err(e) => Err(e)
        case Ok(features) => Ok(GeoDataFrame(gdf.columns, Some(crs), features))
  }

  /** The two CRS steps of the shapefile path (as1.py:294-297). A frame read
      without a CRS, or already in EPSG:4326, comes out with its features as
      read and cannot fail. A frame in another CRS fails only in the
      transform, never with the naive-geometry error. A success is always
      tagged EPSG:4326 and keeps the columns. */
  function NormalizeCrs(gdf: GeoDataFrame, transform: Transform): (r: Result<GeoDataFrame, string>)
    ensures gdf.crs.GetOr(Wgs84) == Wgs84 ==> r == Ok(gdf.(crs := Some(Wgs84)))
    ensures gdf.crs.Some? && gdf.crs.value != Wgs84 ==>
      (r.Ok? <==> transform(gdf.features, gdf.crs.value, Wgs84).Ok?)
      && (r.Err? ==> r.error == transform(gdf.features, gdf.crs.value, Wgs84).error)
      && (r.Ok? ==> r.value.features == transform(gdf.features, gdf.crs.value, Wgs84).value)
    ensures r.Ok? ==> r.value.crs == Some(Wgs84) && r.value.columns == gdf.columns
  {
    ToCrs(AssignDefaultCrs(gdf), Wgs84, transform)
  }
}
