// Band names of the seasonal composite and the display parameters of each
// period.  showcomposite stacks one band group per date window with addBands,
// which renames the bands of period k (k >= 1) with the suffix "_k", and then
// appends the terrain bands; getVizParams names the red, green and blue bands
// of a period with the same suffix.

module Composite {
  import opened Js
  import opened Sensors

  /** Bands of `terrain`: SRTM height, slope and aspect, in that order. */
  const TerrainBands: seq<string> := ["elevation", "slope", "aspect"]

  /** The name band `name` has in period `season`: `name + '_' + season`
      after the first period, `name` itself in period 0. */
  function Suffixed(name: string, season: int): string
  {
    if season > 0 then name + "_" + IntToString(season) else name
  }

  /** The band group contributed by period `season`. */
  function Group(bands: seq<string>, season: nat): seq<string>
  {
    seq(|bands|, j requires 0 <= j < |bands| => Suffixed(bands[j], season))
  }

  /** The band groups of periods 0 .. n-1, in period order. */
  function Groups(bands: seq<string>, n: nat): (r: seq<string>)
    ensures |r| == n * |bands|
  {
    if n == 0 then []
    else
      assert n * |bands| == (n - 1) * |bands| + |bands|;
      Groups(bands, n - 1) + Group(bands, n - 1)
  }

  /** The composite's bands: the period groups, then the terrain bands. */
  function Layout(bands: seq<string>, n: nat): seq<string>
  {
    Groups(bands, n) + TerrainBands
  }

  predicate Distinct(s: seq<string>)
  {
    forall i, j :: 0 <= i < j < |s| ==> s[i] != s[j]
  }

  // ---------------------------------------------------------------------------
  // Where each band sits

  /** a < b steps the product up by at least one whole q. */
  lemma {:induction false} MulStep(a: int, b: int, q: nat)
    requires a < b
    ensures a * q + q <= b * q
    decreases b - a
  {
    if b > a + 1 {
      MulStep(a, b - 1, q);
    }
    assert b * q == (b - 1) * q + q;
  }

  lemma MulLe(a: int, b: int, q: nat)
    requires a <= b
    ensures a * q <= b * q
  {
    if a < b {
      MulStep(a, b, q);
    }
  }

  /** Band j of period k sits at index k * |bands| + j. */
  lemma {:induction false} GroupsAt(bands: seq<string>, n: nat, k: nat, j: nat)
    requires k < n && j < |bands|
    ensures k * |bands| + j < |Groups(bands, n)|
    ensures Groups(bands, n)[k * |bands| + j] == Suffixed(bands[j], k)
  {
    MulLe(k + 1, n, |bands|);
    assert (k + 1) * |bands| == k * |bands| + |bands|;
    if k < n - 1 {
      GroupsAt(bands, n - 1, k, j);
    } else {
      assert |Groups(bands, n - 1)| == k * |bands|;
    }
  }

  /** The composite has |bands| names per window and the three terrain bands
      last, and band j of window k is at k * |bands| + j. */
  lemma LayoutShape(bands: seq<string>, n: nat)
    ensures |Layout(bands, n)| == n * |bands| + 3
    ensures Layout(bands, n)[n * |bands|..] == TerrainBands
    ensures forall k, j :: 0 <= k < n && 0 <= j < |bands| ==>
              Layout(bands, n)[k * |bands| + j] == Suffixed(bands[j], k)
  {
    forall k, j | 0 <= k < n && 0 <= j < |bands|
      ensures Layout(bands, n)[k * |bands| + j] == Suffixed(bands[j], k)
    {
      GroupsAt(bands, n, k, j);
    }
  }

  /** Every name of the period groups is some band of some period. */
  lemma {:induction false} InGroups(bands: seq<string>, n: nat, i: nat)
    requires i < |Groups(bands, n)|
    ensures exists k, j :: 0 <= k < n && 0 <= j < |bands| && Groups(bands, n)[i] == Suffixed(bands[j], k)
  {
    var prev := Groups(bands, n - 1);
    if i < |prev| {
      InGroups(bands, n - 1, i);
    } else {
      var j := i - |prev|;
      assert Groups(bands, n)[i] == Suffixed(bands[j], n - 1);
    }
  }

  // ---------------------------------------------------------------------------
  // No two bands of the composite share a name

  /** Index of the first `c` in `x`, or |x| when there is none. */
  function FirstIndex(x: string, c: char): (i: nat)
    ensures i <= |x|
  {
    if x == [] || x[0] == c then 0 else 1 + FirstIndex(x[1..], c)
  }

  lemma {:induction false} FirstIndexAfter(a: string, c: char, s: string)
    requires c !in a
    ensures FirstIndex(a + [c] + s, c) == |a|
    decreases |a|
  {
    if a != [] {
      assert (a + [c] + s)[1..] == a[1..] + [c] + s;
      FirstIndexAfter(a[1..], c, s);
    }
  }

  lemma UnderscoreSplit(a: string, s: string, b: string, t: string)
    requires '_' !in a && '_' !in b
    requires a + "_" + s == b + "_" + t
    ensures a == b && s == t
  {
    var x := a + "_" + s;
    FirstIndexAfter(a, '_', s);
    FirstIndexAfter(b, '_', t);
    assert |a| == |b|;
    assert a == x[..|a|] && b == x[..|b|];
    assert s == x[|a| + 1..] && t == x[|b| + 1..];
  }

  lemma SuffixedHasUnderscore(a: string, k: nat)
    requires '_' !in a
    ensures '_' in Suffixed(a, k) <==> k > 0
  {
    if k > 0 {
      assert Suffixed(a, k)[|a|] == '_';
    }
  }

  /** For names without '_', the name and the period can be read back. */
  lemma SuffixedInjective(a: string, k: nat, b: string, l: nat)
    requires '_' !in a && '_' !in b
    requires Suffixed(a, k) == Suffixed(b, l)
    ensures a == b && k == l
  {
    SuffixedHasUnderscore(a, k);
    SuffixedHasUnderscore(b, l);
    if k > 0 {
      UnderscoreSplit(a, IntToString(k), b, IntToString(l));
      IntToStringInjective(k, l);
    }
  }

  /** Names the composite can hold: no '_', not a terrain band name. */
  predicate PlainBands(bands: seq<string>)
  {
    Distinct(bands) && forall j :: 0 <= j < |bands| ==> '_' !in bands[j] && bands[j] !in TerrainBands
  }

  /** A name of the first n groups is not a name of group n. */
  lemma EarlierGroupDiffers(bands: seq<string>, n: nat, i: nat, j': nat)
    requires PlainBands(bands)
    requires i < |Groups(bands, n)| && j' < |bands|
    ensures Groups(bands, n)[i] != Group(bands, n)[j']
  {
    var prev := Groups(bands, n);
    InGroups(bands, n, i);
    var k, j :| 0 <= k < n && 0 <= j < |bands| && prev[i] == Suffixed(bands[j], k);
    if prev[i] == Group(bands, n)[j'] {
      SuffixedInjective(bands[j], k, bands[j'], n);
    }
  }

  /** The names of one group are pairwise distinct. */
  lemma GroupDistinct(bands: seq<string>, k: nat, j: nat, j': nat)
    requires PlainBands(bands)
    requires j < j' < |bands|
    ensures Group(bands, k)[j] != Group(bands, k)[j']
  {
    if Group(bands, k)[j] == Group(bands, k)[j'] {
      SuffixedInjective(bands[j], k, bands[j'], k);
    }
  }

  lemma {:induction false} GroupsDistinct(bands: seq<string>, n: nat)
    requires PlainBands(bands)
    ensures Distinct(Groups(bands, n))
  {
    if n > 0 {
      var prev, last := Groups(bands, n - 1), Group(bands, n - 1);
      GroupsDistinct(bands, n - 1);
      forall i, i' | 0 <= i < i' < |prev + last|
        ensures (prev + last)[i] != (prev + last)[i']
      {
        if i' < |prev| {
          assert (prev + last)[i] == prev[i] && (prev + last)[i'] == prev[i'];
        } else if i < |prev| {
          EarlierGroupDiffers(bands, n - 1, i, i' - |prev|);
        } else {
          GroupDistinct(bands, n - 1, i - |prev|, i' - |prev|);
        }
      }
    }
  }

  /** Two lists without repeats and with no name in common concatenate
      to a list without repeats. */
  lemma DistinctAppend(a: seq<string>, b: seq<string>)
    requires Distinct(a) && Distinct(b)
    requires forall i :: 0 <= i < |a| ==> a[i] !in b
    ensures Distinct(a + b)
  {
    forall i, i' | 0 <= i < i' < |a + b|
      ensures (a + b)[i] != (a + b)[i']
    {
      if i < |a| <= i' {
        assert (a + b)[i'] == b[i' - |a|];
      }
    }
  }

  /** No name of the period groups is a terrain band name. */
  lemma GroupNameNotTerrain(bands: seq<string>, n: nat, i: nat)
    requires PlainBands(bands)
    requires i < |Groups(bands, n)|
    ensures Groups(bands, n)[i] !in TerrainBands
  {
    InGroups(bands, n, i);
    var k, j :| 0 <= k < n && 0 <= j < |bands| && Groups(bands, n)[i] == Suffixed(bands[j], k);
    SuffixedHasUnderscore(bands[j], k);
    TerrainPlain();
  }

  lemma TerrainPlain()
    ensures forall t :: t in TerrainBands ==> '_' !in t
  {
    assert '_' !in TerrainBands[0] && '_' !in TerrainBands[1] && '_' !in TerrainBands[2];
  }

  /** With plain band names the composite's band names are pairwise
      distinct, so no group collides with another or with the terrain. */
  lemma LayoutDistinct(bands: seq<string>, n: nat)
    requires PlainBands(bands)
    ensures Distinct(Layout(bands, n))
  {
    var g := Groups(bands, n);
    GroupsDistinct(bands, n);
    forall i | 0 <= i < |g|
      ensures g[i] !in TerrainBands
    {
      GroupNameNotTerrain(bands, n, i);
    }
    DistinctAppend(g, TerrainBands);
  }

  /** A band name holds no '_' and is not a terrain band name. */
  lemma BandNamePlain(x: string)
    requires BandName(x)
    ensures '_' !in x && x !in TerrainBands
  {
    assert TerrainBands[0][0] != 'B' && TerrainBands[1][0] != 'B' && TerrainBands[2][0] != 'B';
  }

  lemma SensorBandsPlain(c: Collection)
    ensures PlainBands(Capabilities(c).bands)
  {
    var bands := Capabilities(c).bands;
    DisplayBandsAvailable(c);
    forall j | 0 <= j < |bands|
      ensures '_' !in bands[j] && bands[j] !in TerrainBands
    {
      BandNamePlain(bands[j]);
    }
  }

  /** For each of the four collections, the composite's band names are
      pairwise distinct, whatever the number of windows. */
  lemma CollectionLayoutDistinct(c: Collection, n: nat)
    ensures Distinct(Layout(Capabilities(c).bands, n))
  {
    SensorBandsPlain(c);
    LayoutDistinct(Capabilities(c).bands, n);
  }

  // ---------------------------------------------------------------------------
  // getVizParams

  datatype VizParams = VizParams(bands: seq<string>, min: int, max: nat, gamma: seq<real>)

  /** What getVizParams returns: null for an unknown collection. */
  function VizParamsOf(collection: string, season: int, r: string, g: string, b: string): Option<VizParams>
  {
    match SwitchVizMax(collection)
    case None => None
    case Some(max) => Some(VizParams([Suffixed(r, season), Suffixed(g, season), Suffixed(b, season)], 0, max, [0.95, 1.1, 1.0]))
  }

  /** getVizParams: the red, green and blue names get `_season` appended
      after the first period; the stretch depends on the collection. */
  method GetVizParams(imageCollection: string, season: int, r: string, g: string, b: string)
    returns (params: Option<VizParams>)
    ensures params == VizParamsOf(imageCollection, season, r, g, b)
    ensures params.Some? <==> FromId(imageCollection).Some?
    ensures params.Some? ==> params.value.max == Capabilities(FromId(imageCollection).value).vizMax
    ensures params.Some? && season <= 0 ==> params.value.bands == [r, g, b]
    ensures params.Some? && season > 0 ==>
              params.value.bands == [r + "_" + IntToString(season), g + "_" + IntToString(season), b + "_" + IntToString(season)]
  {
    var r', g', b' := r, g, b;
    if season > 0 {
      r' := r' + "_" + IntToString(season);
      g' := g' + "_" + IntToString(season);
      b' := b' + "_" + IntToString(season);
    }
    var gamma := [0.95, 1.1, 1.0];
    if imageCollection == "COPERNICUS/S2" {
      return Some(VizParams([r', g', b'], 0, 500, gamma));
    } else if imageCollection == "COPERNICUS/S2_SR" {
      return Some(VizParams([r', g', b'], 0, 500, gamma));
    } else if imageCollection == "LANDSAT/LC08/C01/T1_TOA" {
      return Some(VizParams([r', g', b'], 0, 400, gamma));
    } else if imageCollection == "LANDSAT/LC08/C01/T1_SR" {
      return Some(VizParams([r', g', b'], 0, 4000, gamma));
    }
    return None;
  }

  /** Band j of window k is a band of the composite. */
  lemma InLayout(bands: seq<string>, n: nat, k: nat, j: nat)
    requires k < n && j < |bands|
    ensures Suffixed(bands[j], k) in Layout(bands, n)
  {
    GroupsAt(bands, n, k, j);
    assert Layout(bands, n)[k * |bands| + j] == Groups(bands, n)[k * |bands| + j];
  }

  /** Each satellite layer showcomposite adds, "Period ii+1", displays bands
      B4, B3 and B2 of window ii, and all three are bands of the composite. */
  lemma DisplayedBandsInComposite(c: Collection, n: nat, ii: nat)
    requires ii < n
    ensures VizParamsOf(Id(c), ii, "B4", "B3", "B2").Some?
    ensures forall x :: x in VizParamsOf(Id(c), ii, "B4", "B3", "B2").value.bands ==> x in Layout(Capabilities(c).bands, n)
  {
    var bands := Capabilities(c).bands;
    DisplayBandsFirst(c);
    IdSelects(c);
    InLayout(bands, n, ii, 0);
    InLayout(bands, n, ii, 1);
    InLayout(bands, n, ii, 2);
  }

  /** Every layer in `layers` has display parameters, and every band they
      name is a band of `composite`. */
  predicate ShowsBandsOf(layers: seq<Option<VizParams>>, composite: seq<string>)
  {
    forall ii :: 0 <= ii < |layers| ==>
      layers[ii].Some? && forall x :: x in layers[ii].value.bands ==> x in composite
  }

  /** All the period layers of a known collection display bands of its
      composite, and the composite's band names are pairwise distinct. */
  lemma PeriodLayersInComposite(id: string, n: nat, composite: seq<string>, layers: seq<Option<VizParams>>)
    requires FromId(id).Some?
    requires composite == Layout(Capabilities(FromId(id).value).bands, n)
    requires |layers| == n && forall ii :: 0 <= ii < n ==> layers[ii] == VizParamsOf(id, ii, "B4", "B3", "B2")
    ensures Distinct(composite) && ShowsBandsOf(layers, composite)
  {
    var c := FromId(id).value;
    CollectionLayoutDistinct(c, n);
    forall ii | 0 <= ii < n
      ensures layers[ii].Some? && forall x :: x in layers[ii].value.bands ==> x in composite
    {
      DisplayedBandsInComposite(c, n, ii);
    }
  }
}
