// The four image collections the script supports and what it looks up for
// each.  The script repeats a `switch` on the collection identifier in several
// functions; each switch is modelled on the identifier string as it stands,
// and each is proved to agree with one capability record per collection.

module Sensors {
  import opened Js

  datatype Collection = S2TOA | S2SR | L8TOA | L8SR

  predicate IsSentinel2(c: Collection) { c == S2TOA || c == S2SR }

  /** The Earth Engine collection identifier. */
  function Id(c: Collection): string
  {
    match c
    case S2TOA => "COPERNICUS/S2"
    case S2SR => "COPERNICUS/S2_SR"
    case L8TOA => "LANDSAT/LC08/C01/T1_TOA"
    case L8SR => "LANDSAT/LC08/C01/T1_SR"
  }

  /** Which case of a `switch (imageCollection)` an identifier selects; None
      when it falls through every case. */
  function FromId(id: string): (c: Option<Collection>)
    ensures c.Some? <==> exists k: Collection :: Id(k) == id
    ensures c.Some? ==> Id(c.value) == id
  {
    if id == Id(S2TOA) then Some(S2TOA)
    else if id == Id(S2SR) then Some(S2SR)
    else if id == Id(L8TOA) then Some(L8TOA)
    else if id == Id(L8SR) then Some(L8SR)
    else None
  }

  /** `bb`: band names indexed by band number, with an empty name at 0. */
  const Bb: seq<string> := ["", "B1", "B2", "B3", "B4", "B5", "B6", "B7", "B8", "B9", "B10", "B11", "B12"]
  const Sentinel2Bands: seq<string> := [Bb[2], Bb[3], Bb[4], Bb[5], Bb[6], Bb[7], Bb[8], Bb[11], Bb[12]]
  const Landsat8Bands: seq<string> := [Bb[2], Bb[3], Bb[4], Bb[5], Bb[6], Bb[7]]
  const Sentinel2Resolution: nat := 10
  const Landsat8Resolution: nat := 30

  /** Everything the script looks up per collection, in one record. */
  datatype Capability = Capability(
    bands: seq<string>,       // spectral bands composited
    resolution: nat,          // metres per pixel
    calendarStart: string,    // first date offered by the date slider
    cloudProperty: string,    // image metadata compared with the cloud ceiling
    qaBand: string,           // quality band read by the cloud mask
    multiplier: nat,          // scale factor before the int16 cast
    vizMax: nat)              // display stretch maximum

  function Capabilities(c: Collection): Capability
  {
    match c
    case S2TOA => Capability(Sentinel2Bands, Sentinel2Resolution, "2017-01-01", "CLOUDY_PIXEL_PERCENTAGE", "QA60", 1000, 500)
    case S2SR => Capability(Sentinel2Bands, Sentinel2Resolution, "2017-01-01", "CLOUDY_PIXEL_PERCENTAGE", "QA60", 1000, 500)
    case L8TOA => Capability(Landsat8Bands, Landsat8Resolution, "2014-01-01", "CLOUD_COVER", "BQA", 1000, 400)
    case L8SR => Capability(Landsat8Bands, Landsat8Resolution, "2014-01-01", "CLOUD_COVER", "pixel_qa", 1, 4000)
  }

  // ---------------------------------------------------------------------------
  // The switches as the script writes them, on the identifier string

  /** Band list and resolution chosen in showcomposite; an unknown identifier
      matches no case and leaves both globals as they were. */
  function SwitchBandsAndResolution(id: string): (r: Option<(seq<string>, nat)>)
    ensures r.Some? <==> FromId(id).Some?
    ensures r.Some? ==> r.value == (Capabilities(FromId(id).value).bands, Capabilities(FromId(id).value).resolution)
  {
    if id == "COPERNICUS/S2_SR" || id == "COPERNICUS/S2" then Some((Sentinel2Bands, Sentinel2Resolution))
    else if id == "LANDSAT/LC08/C01/T1_SR" || id == "LANDSAT/LC08/C01/T1_TOA" then Some((Landsat8Bands, Landsat8Resolution))
    else None
  }

  /** `calStartDate` chosen at load time; null for an unknown identifier. */
  function SwitchCalendarStart(id: string): (r: Option<string>)
    ensures r.Some? <==> FromId(id).Some?
    ensures r.Some? ==> r.value == Capabilities(FromId(id).value).calendarStart
  {
    if id == "COPERNICUS/S2_SR" || id == "COPERNICUS/S2" then Some("2017-01-01")
    else if id == "LANDSAT/LC08/C01/T1_SR" || id == "LANDSAT/LC08/C01/T1_TOA" then Some("2014-01-01")
    else None
  }

  /** The metadata property getCollection filters on; null when unknown. */
  function SwitchCloudProperty(id: string): (r: Option<string>)
    ensures r.Some? <==> FromId(id).Some?
    ensures r.Some? ==> r.value == Capabilities(FromId(id).value).cloudProperty
  {
    if id == "COPERNICUS/S2_SR" || id == "COPERNICUS/S2" then Some("CLOUDY_PIXEL_PERCENTAGE")
    else if id == "LANDSAT/LC08/C01/T1_SR" then Some("CLOUD_COVER")
    else if id == "LANDSAT/LC08/C01/T1_TOA" then Some("CLOUD_COVER")
    else None
  }

  /** The multiplier getComposite applies before toInt16; an unknown
      identifier reaches the end of getComposite and returns undefined. */
  function SwitchMultiplier(id: string): (r: Option<nat>)
    ensures r.Some? <==> FromId(id).Some?
    ensures r.Some? ==> r.value == Capabilities(FromId(id).value).multiplier
  {
    if id == "COPERNICUS/S2_SR" || id == "COPERNICUS/S2" || id == "LANDSAT/LC08/C01/T1_TOA" then Some(1000)
    else if id == "LANDSAT/LC08/C01/T1_SR" then Some(1)
    else None
  }

  /** The `max` of getVizParams' display parameters; null when unknown. */
  function SwitchVizMax(id: string): (r: Option<nat>)
    ensures r.Some? <==> FromId(id).Some?
    ensures r.Some? ==> r.value == Capabilities(FromId(id).value).vizMax
  {
    if id == "COPERNICUS/S2" then Some(500)
    else if id == "COPERNICUS/S2_SR" then Some(500)
    else if id == "LANDSAT/LC08/C01/T1_TOA" then Some(400)
    else if id == "LANDSAT/LC08/C01/T1_SR" then Some(4000)
    else None
  }

  /** A band name of `bb`: "B" followed by the band number's digits. */
  predicate BandName(x: string)
  {
    |x| >= 2 && x[0] == 'B' && forall i :: 1 <= i < |x| ==> '0' <= x[i] <= '9'
  }

  /** The band list of a family of sensors offers B4, B3 and B2, names
      each band by its number and lists no band twice. */
  predicate WellFormedBandList(bands: seq<string>)
  {
    "B4" in bands && "B3" in bands && "B2" in bands &&
    (forall j :: 0 <= j < |bands| ==> BandName(bands[j])) &&
    forall i, j :: 0 <= i < j < |bands| ==> bands[i] != bands[j]
  }

  lemma Sentinel2BandList()
    ensures WellFormedBandList(Sentinel2Bands)
    ensures Sentinel2Bands[0] == "B2" && Sentinel2Bands[1] == "B3" && Sentinel2Bands[2] == "B4"
  {
    assert Sentinel2Bands == ["B2", "B3", "B4", "B5", "B6", "B7", "B8", "B11", "B12"];
  }

  lemma Landsat8BandList()
    ensures WellFormedBandList(Landsat8Bands)
    ensures Landsat8Bands[0] == "B2" && Landsat8Bands[1] == "B3" && Landsat8Bands[2] == "B4"
  {
    assert Landsat8Bands == ["B2", "B3", "B4", "B5", "B6", "B7"];
  }

  /** Every collection offers the red, green and blue bands that the display
      parameters name (B4, B3, B2), names each band by its number and lists
      no band twice. */
  lemma DisplayBandsAvailable(c: Collection)
    ensures WellFormedBandList(Capabilities(c).bands)
  {
    if IsSentinel2(c) {
      Sentinel2BandList();
    } else {
      Landsat8BandList();
    }
  }

  /** Every band list starts with B2, B3 and B4, in that order. */
  lemma DisplayBandsFirst(c: Collection)
    ensures |Capabilities(c).bands| >= 3
    ensures Capabilities(c).bands[0] == "B2" && Capabilities(c).bands[1] == "B3" && Capabilities(c).bands[2] == "B4"
  {
    if IsSentinel2(c) {
      Sentinel2BandList();
    } else {
      Landsat8BandList();
    }
  }

  /** Each collection's identifier selects that collection. */
  lemma IdSelects(c: Collection)
    ensures FromId(Id(c)) == Some(c)
  {
  }
}
