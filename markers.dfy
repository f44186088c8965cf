/** The city markers the dashboard puts on the map before any upload
    (as1.py:130-165). Coordinates come from geocoding and are given. */
module Markers {
  import opened Wrappers

  /** One row of the city table: its name and its geocoded position. */
  datatype CityRow = CityRow(city: string, latitude: real, longitude: real)

  /** `folium.Icon(color=..., icon=...)`. */
  datatype Icon = Icon(color: string, icon: string)

  /** `folium.Marker`; `icon == None` is folium's default icon. */
  datatype Marker = Marker(location: (real, real), tooltip: string, popup: string, icon: Option<Icon>)

  /** The cities the `if`/`elif` chain names. */
  const NamedCities: set<string> := {"London", "Paris", "Rome", "Vienna"}

  /** The icon chosen by the `if`/`elif` chain: a specific icon for each of
      the four named cities, the default icon for any other; only London's is
      a cloud. */
  function CityIcon(city: string): (icon: Option<Icon>)
    ensures icon.Some? <==> city in NamedCities
    ensures icon.Some? && icon.value.icon == "cloud" <==> city == "London"
    ensures icon.Some? ==> (icon.value.icon == "cloud" || icon.value.icon == "heart")
  {
    if city == "London" then Some(Icon("orange", "cloud"))
    else if city == "Paris" then Some(Icon("red", "heart"))
    else if city == "Rome" then Some(Icon("green", "heart"))
    else if city == "Vienna" then Some(Icon("darkpurple", "heart"))
    else None
  }

  /** No two named cities share an icon. */
  lemma NamedCityIconsDistinct(a: string, b: string)
    requires a in NamedCities && b in NamedCities && a != b
    ensures CityIcon(a) != CityIcon(b)
  {
  }

  /** The marker one row gets in every branch: at the row's position, with
      the city name as tooltip and popup. */
  function CityMarker(row: CityRow): Marker
  {
    Marker((row.latitude, row.longitude), row.city, row.city, CityIcon(row.city))
  }

  /** The markers of the loop over `df.iterrows()`, in row order: one per
      row, labelled with that row's city and carrying its icon. */
  function CityMarkers(rows: seq<CityRow>): (markers: seq<Marker>)
    ensures |markers| == |rows|
    ensures forall i :: 0 <= i < |rows| ==>
      markers[i].tooltip == rows[i].city && markers[i].popup == rows[i].city
      && markers[i].location == (rows[i].latitude, rows[i].longitude)
      && markers[i].icon == CityIcon(rows[i].city)
  {
    if rows == [] then []
    else CityMarkers(rows[..|rows| - 1]) + [CityMarker(rows[|rows| - 1])]
  }

  /** The cities of the sample table (as1.py:15-24), in order. */
  const SampleCities: seq<string> :=
    ["London", "Paris", "Madrid", "Berlin", "Rome", "Athens", "Vienna", "Amsterdam"]

  /** Of the eight sample cities, Madrid, Berlin, Athens and Amsterdam get
      the default icon and the other four the icons the chain names. */
  lemma SampleCityIcons()
    ensures CityIcon(SampleCities[0]) == Some(Icon("orange", "cloud"))
    ensures CityIcon(SampleCities[1]) == Some(Icon("red", "heart"))
    ensures CityIcon(SampleCities[4]) == Some(Icon("green", "heart"))
    ensures CityIcon(SampleCities[6]) == Some(Icon("darkpurple", "heart"))
    ensures forall i :: i in {2, 3, 5, 7} ==> CityIcon(SampleCities[i]).None?
  {
  }
}
