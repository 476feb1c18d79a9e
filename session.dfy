// The script's global state and the code that changes it: the slider
// callbacks, which keep the number of validation points in step with the
// number of training points and the cross-validation percentage, and
// showcomposite, which picks the band list and resolution of the selected
// collection, stacks one band group per date window and adds the display
// layer of each period.  The training and validation requests of the Classify
// and Validate buttons read the same state.

module Session {
  import opened Js
  import opened Sensors
  import opened DateFilters
  import opened Composite
  import opened Drawing
  import opened Partition

  /** Seed of the stratified sample of training points. */
  const TrainingSeed: int := 7638
  /** Seed of the stratified sample of validation points. */
  const ValidationSeed: int := 2982
  /** Seed of the random column that splits the drawn parts. */
  const CrossValSeed: int := 0

  /** `round(nTrain * p / (100 - p))`: the validation points that go with
      nTrain training points when p per cent of the parts are kept back. */
  function ValidPointCount(nTrain: nat, p: int): nat
    requires 0 <= p < 100
  {
    MulLe(0, nTrain, p);
    (2 * nTrain * p + (100 - p)) / (2 * (100 - p))
  }

  /** r lies within half a step of nTrain * p / (100 - p), halves rounded
      up: r is that quotient rounded to the nearest integer. */
  predicate Nearest(nTrain: nat, p: int, r: int)
  {
    -(100 - p) < 2 * (r * (100 - p) - nTrain * p) <= 100 - p
  }

  /** The count is the integer nearest to the quotient. */
  lemma ValidPointCountNearest(nTrain: nat, p: int)
    requires 0 <= p < 100
    ensures Nearest(nTrain, p, ValidPointCount(nTrain, p))
  {
    var d := 2 * (100 - p);
    var a := 2 * nTrain * p + (100 - p);
    assert a == (a / d) * d + a % d;
  }

  /** The defaults, 1400 training points and 30 per cent, give the initial
      600 validation points. */
  lemma DefaultValidPointCount()
    ensures ValidPointCount(1400, 30) == 600
  {
  }

  /** Two counts that both lie within half a step of the same quotient are
      equal: the rounding is a function of the quotient alone. */
  lemma NearestUnique(nTrain: nat, p: int, r: int, r': int)
    requires 0 <= p < 100
    requires Nearest(nTrain, p, r) && Nearest(nTrain, p, r')
    ensures r == r'
  {
    if r < r' {
      MulStep(r, r', 100 - p);
    } else if r' < r {
      MulStep(r', r, 100 - p);
    }
  }

  /** More training points never give fewer validation points. */
  lemma ValidPointCountMonotone(n1: nat, n2: nat, p: int)
    requires 0 <= p < 100 && n1 <= n2
    ensures ValidPointCount(n1, p) <= ValidPointCount(n2, p)
  {
    var r1, r2 := ValidPointCount(n1, p), ValidPointCount(n2, p);
    ValidPointCountNearest(n1, p);
    ValidPointCountNearest(n2, p);
    MulLe(n1, n2, p);
    if r1 > r2 {
      MulStep(r2, r1, 100 - p);
    }
  }

  /** While at most half the parts are kept back, there are no more
      validation points than training points. */
  lemma ValidPointCountAtMostTrain(nTrain: nat, p: int)
    requires 0 <= p <= 50
    ensures ValidPointCount(nTrain, p) <= nTrain
  {
    var r := ValidPointCount(nTrain, p);
    ValidPointCountNearest(nTrain, p);
    MulLe(p, 100 - p, nTrain);
    assert p * nTrain == nTrain * p;
    if r > nTrain {
      MulStep(nTrain, r, 100 - p);
    }
  }

  /** The loop of showcomposite that stacks the composite of each of the n
      windows (addBands suffixing the names of window ii), then the terrain. */
  method StackComposite(b: seq<string>, n: nat) returns (composite: seq<string>)
    ensures composite == Layout(b, n)
  {
    composite := [];
    var ii := 0;
    while ii < n
      invariant 0 <= ii <= n
      invariant composite == Groups(b, ii)
    {
      composite := composite + Group(b, ii);
      ii := ii + 1;
    }
    composite := composite + TerrainBands;
  }

  /** The loop of showcomposite that adds the layer 'Period ii+1' for each
      window, showing B4, B3 and B2 of that window. */
  method PeriodLayers(imageCollection: string, n: nat) returns (layers: seq<Option<VizParams>>)
    ensures |layers| == n
    ensures forall ii :: 0 <= ii < n ==> layers[ii] == VizParamsOf(imageCollection, ii, "B4", "B3", "B2")
  {
    layers := [];
    var ii := 0;
    while ii < n
      invariant 0 <= ii <= n && |layers| == ii
      invariant forall k :: 0 <= k < ii ==> layers[k] == VizParamsOf(imageCollection, k, "B4", "B3", "B2")
    {
      var params := GetVizParams(imageCollection, ii, Bb[4], Bb[3], Bb[2]);
      layers := layers + [params];
      ii := ii + 1;
    }
  }

  /** The script's globals that the model follows. */
  class Globals {
    var satelliteImageCollection: string
    var calStartDate: Option<string>
    var cloud: int
    var nTrees: int
    var nTrainPoints: nat
    var nValidPoints: nat
    var propCrossVali: int
    var resolution: Option<nat>
    var bands: Option<seq<string>>
    /** The band names of seasonalComposite; None while it is unset. */
    var seasonalComposite: Option<seq<string>>
    /** The display parameters of the layers 'Period 1' .. 'Period n'. */
    var satelliteLayers: seq<Option<VizParams>>

    /** The validation count agrees with the two values it is derived from,
        and bands and resolution come from one collection. */
    predicate Valid()
      reads this`propCrossVali, this`nTrainPoints, this`nValidPoints, this`bands, this`resolution
    {
      0 <= propCrossVali < 100 &&
      nValidPoints == ValidPointCount(nTrainPoints, propCrossVali) &&
      (bands.Some? <==> resolution.Some?) &&
      (bands.Some? ==> exists c :: bands.value == Capabilities(c).bands && resolution.value == Capabilities(c).resolution)
    }

    /** The script as loaded: the collection named by MyImageCollection or
        Sentinel-2 surface reflectance, the slider defaults, nothing
        computed yet. */
    constructor (myImageCollection: Option<string>)
      ensures satelliteImageCollection == (if myImageCollection.Some? then myImageCollection.value else Id(S2SR))
      ensures calStartDate == SwitchCalendarStart(satelliteImageCollection)
      ensures cloud == 30 && nTrees == 100 && nTrainPoints == 1400 && nValidPoints == 600 && propCrossVali == 30
      ensures resolution == None && bands == None && seasonalComposite == None && satelliteLayers == []
      ensures Valid()
    {
      cloud := 30;
      nTrees := 100;
      nTrainPoints := 1400;
      nValidPoints := 600;
      propCrossVali := 30;
      satelliteImageCollection := if myImageCollection.Some? then myImageCollection.value else Id(S2SR);
      calStartDate := SwitchCalendarStart(if myImageCollection.Some? then myImageCollection.value else Id(S2SR));
      resolution := None;
      bands := None;
      seasonalComposite := None;
      satelliteLayers := [];
      DefaultValidPointCount();
    }

    /** changeTrainCallback: new training count, validation count recomputed. */
    method ChangeTrain(sliderVal: nat)
      requires Valid() && 100 <= sliderVal <= 10000
      modifies this
      ensures propCrossVali == old(propCrossVali) && cloud == old(cloud) && nTrees == old(nTrees)
      ensures nTrainPoints == sliderVal
      ensures nValidPoints == ValidPointCount(sliderVal, propCrossVali)
      ensures satelliteImageCollection == old(satelliteImageCollection) && calStartDate == old(calStartDate)
      ensures resolution == old(resolution) && bands == old(bands)
      ensures seasonalComposite == old(seasonalComposite) && satelliteLayers == old(satelliteLayers)
      ensures Valid()
    {
      nTrainPoints := sliderVal;
      nValidPoints := ValidPointCount(nTrainPoints, propCrossVali);
    }

    /** changePropCrossValiCallback: new percentage, validation count
        recomputed from it. */
    method ChangePropCrossVali(sliderVal: int)
      requires Valid() && 10 <= sliderVal <= 50
      modifies this
      ensures propCrossVali == sliderVal
      ensures nValidPoints == ValidPointCount(nTrainPoints, sliderVal)
      ensures nValidPoints <= nTrainPoints
      ensures nTrainPoints == old(nTrainPoints) && cloud == old(cloud) && nTrees == old(nTrees)
      ensures satelliteImageCollection == old(satelliteImageCollection) && calStartDate == old(calStartDate)
      ensures resolution == old(resolution) && bands == old(bands)
      ensures seasonalComposite == old(seasonalComposite) && satelliteLayers == old(satelliteLayers)
      ensures Valid()
    {
      propCrossVali := sliderVal;
      nValidPoints := ValidPointCount(nTrainPoints, sliderVal);
      ValidPointCountAtMostTrain(nTrainPoints, sliderVal);
    }

    /** changeCloudCallback: the cloud ceiling of getCollection. */
    method ChangeCloud(sliderVal: int)
      requires Valid() && 0 <= sliderVal <= 100
      modifies this
      ensures cloud == sliderVal
      ensures nTrainPoints == old(nTrainPoints) && nValidPoints == old(nValidPoints)
      ensures propCrossVali == old(propCrossVali) && nTrees == old(nTrees)
      ensures satelliteImageCollection == old(satelliteImageCollection) && calStartDate == old(calStartDate)
      ensures resolution == old(resolution) && bands == old(bands)
      ensures seasonalComposite == old(seasonalComposite) && satelliteLayers == old(satelliteLayers)
      ensures Valid()
    {
      cloud := sliderVal;
    }

    /** changeTreesCallback: the number of trees of the random forest. */
    method ChangeTrees(sliderVal: int)
      requires Valid() && 10 <= sliderVal <= 500
      modifies this
      ensures nTrees == sliderVal
      ensures nTrainPoints == old(nTrainPoints) && nValidPoints == old(nValidPoints)
      ensures propCrossVali == old(propCrossVali) && cloud == old(cloud)
      ensures satelliteImageCollection == old(satelliteImageCollection) && calStartDate == old(calStartDate)
      ensures resolution == old(resolution) && bands == old(bands)
      ensures seasonalComposite == old(seasonalComposite) && satelliteLayers == old(satelliteLayers)
      ensures Valid()
    {
      nTrees := sliderVal;
    }

    /** The band list and resolution of collection `c`, set by the switch
        at the head of showcomposite. */
    method SetBandsAndResolution(b: seq<string>, res: nat, ghost c: Collection)
      requires Valid()
      requires b == Capabilities(c).bands && res == Capabilities(c).resolution
      modifies this`bands, this`resolution
      ensures bands == Some(b) && resolution == Some(res)
      ensures Valid()
    {
      bands := Some(b);
      resolution := Some(res);
    }

    /** The period part of showcomposite for a known collection, whose
        bands are already selected: the composite of the n windows, then
        one display layer per window. */
    method ShowPeriods(imageCollection: string, n: nat)
      requires FromId(imageCollection).Some?
      requires bands == Some(Capabilities(FromId(imageCollection).value).bands)
      modifies this`seasonalComposite, this`satelliteLayers
      ensures seasonalComposite == Some(Layout(bands.value, n))
      ensures |satelliteLayers| == n
      ensures forall ii :: 0 <= ii < n ==> satelliteLayers[ii] == VizParamsOf(imageCollection, ii, "B4", "B3", "B2")
      ensures Distinct(seasonalComposite.value) && ShowsBandsOf(satelliteLayers, seasonalComposite.value)
    {
      var composite := StackComposite(bands.value, n);
      seasonalComposite := Some(composite);
      var layers := PeriodLayers(imageCollection, n);
      satelliteLayers := layers;
      PeriodLayersInComposite(imageCollection, n, composite, layers);
    }

    /** showcomposite, given the collection selector's value (None while
        nothing is selected) and the text of the composites box.  An
        identifier outside the four collections matches no case: bands and
        resolution keep their values and getComposite fails on the first
        window, so `ok` is false and the composite and its layers are left
        as they were.  Otherwise the last step looks up the area of interest
        among the drawn layers `drawn`: `aoi` is that lookup, whose error
        is the exception showcomposite ends with after every global above
        has been assigned; it is None when the script stopped earlier.  The
        slider values and the date start are not among the fields it may
        change. */
    method ShowComposite(selected: Option<string>, intervals: string, drawn: seq<Layer>)
      returns (ok: bool, aoi: Option<Result<EeObject>>)
      requires Valid()
      modifies this`satelliteImageCollection, this`bands, this`resolution, this`seasonalComposite, this`satelliteLayers
      ensures aoi == if ok then Some(GetAOI(drawn)) else None
      ensures aoi.Some? ==> (aoi.value.Err? <==> forall i :: 0 <= i < |drawn| ==> drawn[i].name != Aoi)
      ensures satelliteImageCollection == (if selected.Some? then selected.value else old(satelliteImageCollection))
      ensures ok <==> FromId(satelliteImageCollection).Some?
      ensures ok ==>
                var cap := Capabilities(FromId(satelliteImageCollection).value);
                var n := Count(intervals, ':') + 1;
                bands == Some(cap.bands) && resolution == Some(cap.resolution) &&
                seasonalComposite == Some(Layout(cap.bands, n)) &&
                |satelliteLayers| == n &&
                forall ii :: 0 <= ii < n ==> satelliteLayers[ii] == VizParamsOf(satelliteImageCollection, ii, "B4", "B3", "B2")
      ensures ok ==> Distinct(seasonalComposite.value) && ShowsBandsOf(satelliteLayers, seasonalComposite.value)
      ensures !ok ==>
                bands == old(bands) && resolution == old(resolution) &&
                seasonalComposite == old(seasonalComposite) && satelliteLayers == old(satelliteLayers)
      ensures Valid()
    {
      var imageCollection := if selected.Some? then selected.value else satelliteImageCollection;
      satelliteImageCollection := imageCollection;
      var switched := SwitchBandsAndResolution(imageCollection);
      if switched.None? {
        // No case matches and getComposite fails on the first window.
        return false, None;
      }
      SetBandsAndResolution(switched.value.0, switched.value.1, FromId(imageCollection).value);
      var s := GetDateFilters(intervals);
      ShowPeriods(imageCollection, |s|);
      GetAOISpec(drawn);
      return true, Some(GetAOI(drawn));
    }

    /** The features main hands to createDataPoints for training, read
        from the state showcomposite leaves: each drawn Feature layer, split
        into parts, filtered by `random <= 1 - PropCrossVali/100` and
        collapsed, sampled with nTrainPoints points per class and the
        training seed.  main runs showcomposite first, which throws for a
        collection identifier outside the four, and then looks up the area
        of interest, which throws when no layer is named "aoi"; in either
        case no request is built and `features` is None, as it is when a
        drawn feature keeps no part. */
    method TrainingRequest(layers: seq<Layer>, rand: RandomColumn)
      returns (features: Option<seq<Feature>>, nPoints: nat, seed: int)
      requires Valid()
      ensures FromId(satelliteImageCollection).None? ==> features == None
      ensures GetAOI(layers).Err? ==> features == None
      ensures FromId(satelliteImageCollection).Some? && GetAOI(layers).Ok? ==>
                features == LandFeatures(TrainingObjects(layers), TrainingInclusion(propCrossVali), CrossValSeed, rand)
      ensures nPoints == nTrainPoints && seed == TrainingSeed
    {
      nPoints := nTrainPoints;
      seed := TrainingSeed;
      if SwitchBandsAndResolution(satelliteImageCollection).None? {
        // showcomposite's getComposite fails before main gets further.
        return None, nPoints, seed;
      }
      var theAOI := GetAOI(layers);
      if theAOI.Err? {
        return None, nPoints, seed;
      }
      var expression := AtMost(1.0 - (propCrossVali as real) / 100.0);
      assert expression == TrainingInclusion(propCrossVali);
      features := LandFeatures(TrainingObjects(layers), expression, CrossValSeed, rand);
    }

    /** The same for validateCallback: `random > 1 - PropCrossVali/100`,
        nValidPoints points per class, the validation seed, and the same
        seed for the random column. */
    method ValidationRequest(layers: seq<Layer>, rand: RandomColumn)
      returns (features: Option<seq<Feature>>, nPoints: nat, seed: int)
      requires Valid()
      ensures features == LandFeatures(TrainingObjects(layers), ValidationInclusion(propCrossVali), CrossValSeed, rand)
      ensures nPoints == nValidPoints && seed == ValidationSeed
      ensures nPoints == ValidPointCount(nTrainPoints, propCrossVali)
    {
      var expression := Above(1.0 - (propCrossVali as real) / 100.0);
      assert expression == ValidationInclusion(propCrossVali);
      features := LandFeatures(TrainingObjects(layers), expression, CrossValSeed, rand);
      nPoints := nValidPoints;
      seed := ValidationSeed;
    }
  }
}
