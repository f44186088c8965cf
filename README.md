# Upload handler and city markers of the map dashboard

This project models the logic of the Streamlit/folium dashboard in `as1.py`
that can be stated and proved: the upload handler `handle_upload` and the
loop that puts one marker per capital city on the shared folium map `m`.

- `Upload` (upload.dfy): the uploaded file, the case-sensitive `endswith`
  tests and the three-way dispatch they make. `.geojson`/`.json` is read in
  memory, `.shp` from a staged copy, and any other name does nothing.
- `GeoData` (geodata.dfy): a GeoDataFrame reduced to its column names, its
  CRS tag and an opaque feature list. It also holds the shapefile path's CRS
  steps: assign `EPSG:4326` when the CRS is missing, then `to_crs("EPSG:4326")`.
  `gpd.read_file` and the pyproj transform are function-valued parameters
  (`Reader`, `Transform`). An `Err` result stands for the exception they raise.
- `Layer` (layer.dfy): the popup/tooltip field list
  `[col for col in gdf.columns if col != "geometry"]`, the constant
  `highlight_function`, the two tooltip style strings and the GeoJson layer.
- `Markers` (markers.dfy): the icon chosen for each city and the marker list
  the row loop produces.
- `FoliumMap` (folium_map.dfy): the map as a class with a sequence of
  children. `HandleUpload` changes it step by step and is specified by the
  pure function `ProcessUpload`. `RunDashboard` builds the map from the
  markers and calls the handler only when a file was uploaded.

Facts about the code that the model keeps:
- `handle_upload` takes one file (`accept_multiple_files=False`, as1.py:326).
- A name neither test accepts is ignored without an error: the `elif` at
  as1.py:250 has no `else`. The two tests can never both hold
  (`Upload.BranchesDisjoint`).
- The field list drops only entries equal to the string `"geometry"`
  (as1.py:241, 244, 310, 313).
- Nothing in `handle_upload` catches an exception, so whatever `read_file` or
  `to_crs` raises propagates out of it (as1.py:226, 261, 297).
- Only the shapefile branch touches the CRS (as1.py:294-297). The GeoJSON
  branch passes the frame as read to `folium.GeoJson` (as1.py:226-239).

## Model

| member | source | states |
|---|---|---|
| `Upload.Classify` | as1.py:221-250 | the in-memory branch is taken exactly for names ending in `.geojson` or `.json`, the staged branch exactly for names ending in `.shp`, and no branch for every other name |
| `Upload.BranchesDisjoint` | as1.py:222-224 | no name passes both the GeoJSON test and the `.shp` test, so the order of `if`/`elif` decides nothing |
| `Upload.UpperCaseSuffixesFallThrough` | as1.py:222-250 | the tests are case-sensitive: a name ending in `.JSON`, `.GEOJSON` or `.SHP` takes no branch |
| `Upload.OtherLastCharFallsThrough` | as1.py:222-250 | a name whose last character is neither `n` nor `p` takes no branch |
| `Upload.SidecarsFallThrough` | as1.py:250 | a `.shx`, `.dbf` or `.prj` name given to the handler takes no branch |
| `GeoData.AssignDefaultCrs` | as1.py:294-295 | afterwards the CRS is always defined: a missing CRS becomes `EPSG:4326`, a declared one is kept unchanged, and columns and features are untouched |
| `GeoData.ToCrs` | as1.py:297 | a frame without CRS is refused with the naive-geometry error; a frame already in the target CRS is returned unchanged; otherwise it succeeds exactly when the transform does, with the transformed features, or fails with the transform's error; a result is always tagged with the target CRS and keeps the columns |
| `GeoData.NormalizeCrs` | as1.py:294-297 | a frame read without a CRS or already in `EPSG:4326` comes out tagged `EPSG:4326` with its features as read and cannot fail; a frame in another CRS fails only with the transform's own error, never the naive-geometry error, and otherwise holds the transformed features; a success is tagged `EPSG:4326` and keeps the columns |
| `Layer.FieldList` | as1.py:241 | the field list never contains `"geometry"`; it holds exactly the columns other than `"geometry"`, each as often as in the columns |
| `Layer.FieldListIsSubsequence` | as1.py:310 | the field list is a subsequence of the columns, so their order is kept |
| `Layer.FieldListAppend` | as1.py:244 | filtering a concatenation gives the concatenation of the filtered parts, so the filter works column by column and drops nothing else |
| `Layer.FieldListWithoutGeometry` | as1.py:313 | without a `"geometry"` column the field list equals the columns |
| `Layer.FieldListIdempotent` | as1.py:241 | filtering the field list again changes nothing |
| `Layer.HighlightFunction` | as1.py:231-237 | for any feature the style is fillColor `#ff0000`, color `#000000`, weight 1 and fillOpacity 0.5 |
| `Layer.BuildLayer` | as1.py:239-249 | the layer shows the given frame; popup and tooltip both get exactly `FieldList` of the columns, that is the columns minus `"geometry"` in their order, and equal to the columns when there is no `"geometry"` column; the highlight is the same constant style for every feature |
| `Markers.CityIcon` | as1.py:131-165 | a city gets a specific icon exactly when it is London, Paris, Rome or Vienna and the default icon otherwise; only London's icon is a cloud and the others are hearts |
| `Markers.NamedCityIconsDistinct` | as1.py:131-159 | no two of the four named cities share an icon |
| `Markers.CityMarkers` | as1.py:130-165 | one marker per row, in row order, at the row's position, with tooltip and popup equal to the city name and the icon chosen for that city |
| `Markers.SampleCityIcons` | as1.py:15-24 | of the eight sample cities, London is orange/cloud, Paris red/heart, Rome green/heart and Vienna darkpurple/heart, and Madrid, Berlin, Athens and Amsterdam get the default icon |
| `FoliumMap.ProcessUpload` | as1.py:221-319 | no layer is produced exactly when no branch accepts the name; on the GeoJSON path the layer is given the frame exactly as read (CRS included) and an exception can come only from reading; on the shapefile path the layer shows the read frame after `NormalizeCrs`, a frame read without a CRS or in `EPSG:4326` is always mounted with its features as read, and an exception comes from reading or from the transform; popup and tooltip fields are always the same, and the highlight is the constant style on both paths |
| `FoliumMap.UnsupportedNameChangesNothing` | as1.py:221-250 | a name neither test accepts adds nothing to the map and raises nothing |
| `FoliumMap.UploadAddsAtMostOneLayer` | as1.py:239 | an upload adds exactly one GeoJson layer when it is mounted and none otherwise |
| `FoliumMap.Map.constructor` | as1.py:115-117 | a new map has no children |
| `FoliumMap.Map.AddChild` | as1.py:308 | `add_to(m)` appends the child after all existing children |
| `FoliumMap.Map.AddCityMarkers` | as1.py:130-165 | the loop appends the city markers in row order after what the map already holds |
| `FoliumMap.Map.HandleUpload` | as1.py:221-319 | the map becomes its old children followed by the layer the upload produces, if any; earlier markers and layers stay in place and in order; an exception or an unrecognised name leaves the map as it was, and the exception message is returned |
| `FoliumMap.RunDashboard` | as1.py:329-330 | the handler runs only when a file was uploaded; the map then holds the city markers followed by the uploaded layer, and holds exactly one GeoJson layer when the upload was mounted and none otherwise |

## Left out

- Geocoding of the cities (as1.py:40-43) is network I/O: latitude and longitude are given in each `CityRow`, and a failed lookup is not modelled.
- The bar, pie and scatter plots, the Streamlit layout and widgets, the basemap catalog and the map controls added before the markers (as1.py:68-127), and rendering with `folium_static` are display code. The model's map starts empty rather than with those controls.
- `folium.Map(...)` (as1.py:115) adds a default OpenStreetMap tile layer in its constructor. The model's map does not hold it.
- The uploader's `type=["geojson","shp","json"]` filter (as1.py:325) is part of Streamlit and is not modelled. So the handler may receive any name, and `Upload.SidecarsFallThrough` speaks of a direct call to the handler.
- FoliumMap.RunDashboard: an exception from `handle_upload` escapes the script at as1.py:330, so `folium_static(m)` (as1.py:333) never runs. The model returns the message as `raised` and still returns the map.
- The map centre (the mean of latitudes and longitudes) and the heatmap layer (as1.py:115-116, 168-172) are floating-point display work.
- Parsing inside `gpd.read_file` and the coordinate transform inside `to_crs` are geopandas and pyproj code that is not part of this model. They are the `Reader` and `Transform` parameters.
- GeoData.ToCrs: geopandas decides that a frame is already in the target CRS with pyproj's `is_exact_same`; the model compares the CRS strings instead. Two different spellings of one CRS therefore go through the transform in the model.
- Folium's own handling of the frame inside `folium.GeoJson` is not modelled: the layer holds the frame it is given. Folium reprojects that frame to EPSG:4326 when it serialises it, and it may raise while doing so. So on the GeoJSON path the rendered layer is in EPSG:4326 too, and a transform error can occur there. The model captures neither.
- Row preservation by the transform is not modelled: the `Transform` parameter may return any feature sequence. Geopandas transforms the geometries one by one and keeps every row, but the model does not state that the shapefile layer keeps every feature read.
- The temporary directory, the file written into it and the `SHAPE_RESTORE_SHX` environment variable (as1.py:251-260) are filesystem and process I/O. The staged copy is the `TempFile` source carrying the file's name and bytes. `print(gdf.head())` (as1.py:292) is output only.
- FoliumMap.Map.HandleUpload: the layer is built as one value with its popup and tooltip and then appended. The code appends the layer first and attaches popup and tooltip to it afterwards. Nothing runs in between, so the map's final state is the same.
- Commented-out code (as1.py:177-219, 253-291, 335-357) is never executed.
- Population figures are used only by the plots and the heatmap and are not part of a `CityRow`.
