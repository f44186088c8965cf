/** The uploaded file and the suffix tests that pick the code path of
    `handle_upload` (as1.py:221-250). */
module Upload {

  /** The single file the sidebar uploader hands over
      (`accept_multiple_files=False`): its name and its bytes. */
  datatype UploadedFile = UploadedFile(name: string, content: seq<bv8>)

  /** Python's `str.endswith`: case-sensitive, compares the last characters. */
  predicate EndsWith(s: string, suffix: string) {
    |suffix| <= |s| && s[|s| - |suffix|..] == suffix
  }

  /** The condition of the first branch (as1.py:222-224). */
  predicate IsGeoJsonName(name: string) {
    EndsWith(name, ".geojson") || EndsWith(name, ".json")
  }

  /** The condition of the second branch (as1.py:250). */
  predicate IsShapefileName(name: string) {
    EndsWith(name, ".shp")
  }

  /** Which branch of `handle_upload` a file name takes. `NoBranch` is the
      missing `else`: the handler then does nothing at all. */
  datatype UploadPath = InMemory | Staged | NoBranch

  /** What `gpd.read_file` is given: the uploaded buffer itself on the GeoJSON
      path, or the copy written under the file's own name into a fresh
      temporary directory on the shapefile path. */
  datatype Source =
    | Buffer(file: UploadedFile)
    | TempFile(name: string, content: seq<bv8>)

  lemma EndsWithLastChar(s: string, suffix: string)
    requires |suffix| > 0 && EndsWith(s, suffix)
    ensures s[|s| - 1] == suffix[|suffix| - 1]
  {
  }

  /** No name passes both tests: a GeoJSON name ends in 'n', a shapefile
      name in 'p'. So the `if`/`elif` order never decides anything. */
  lemma BranchesDisjoint(name: string)
    ensures !(IsGeoJsonName(name) && IsShapefileName(name))
  {
    if IsShapefileName(name) {
      EndsWithLastChar(name, ".shp");
      if EndsWith(name, ".json") {
        EndsWithLastChar(name, ".json");
      }
      if EndsWith(name, ".geojson") {
        EndsWithLastChar(name, ".geojson");
      }
    }
  }

  function Classify(name: string): (path: UploadPath)
    ensures path == InMemory <==> IsGeoJsonName(name)
    ensures path == Staged <==> IsShapefileName(name)
    ensures path == NoBranch <==> !IsGeoJsonName(name) && !IsShapefileName(name)
  {
    BranchesDisjoint(name);
    if IsGeoJsonName(name) then InMemory
    else if IsShapefileName(name) then Staged
    else NoBranch
  }

  /** The tests are case-sensitive: upper-case suffixes fall through to the
      missing `else`. */
  lemma UpperCaseSuffixesFallThrough(name: string)
    requires EndsWith(name, ".JSON") || EndsWith(name, ".GEOJSON") || EndsWith(name, ".SHP")
    ensures Classify(name) == NoBranch
  {
    if EndsWith(name, ".JSON") {
      EndsWithLastChar(name, ".JSON");
    } else if EndsWith(name, ".GEOJSON") {
      EndsWithLastChar(name, ".GEOJSON");
    } else {
      EndsWithLastChar(name, ".SHP");
    }
    if EndsWith(name, ".json") { EndsWithLastChar(name, ".json"); }
    if EndsWith(name, ".geojson") { EndsWithLastChar(name, ".geojson"); }
    if EndsWith(name, ".shp") { EndsWithLastChar(name, ".shp"); }
  }

  /** A name whose last character is neither 'n' nor 'p' takes no branch. */
  lemma OtherLastCharFallsThrough(name: string)
    requires |name| > 0 && name[|name| - 1] != 'n' && name[|name| - 1] != 'p'
    ensures Classify(name) == NoBranch
  {
  }

  /** The shapefile sidecars, uploaded on their own, take no branch. */
  lemma SidecarsFallThrough(base: string)
    ensures Classify(base + ".shx") == NoBranch
    ensures Classify(base + ".dbf") == NoBranch
    ensures Classify(base + ".prj") == NoBranch
  {
    var shx, dbf, prj := base + ".shx", base + ".dbf", base + ".prj";
    assert shx[|shx| - 1] == 'x' && dbf[|dbf| - 1] == 'f' && prj[|prj| - 1] == 'j';
    OtherLastCharFallsThrough(shx);
    OtherLastCharFallsThrough(dbf);
    OtherLastCharFallsThrough(prj);
  }
}
