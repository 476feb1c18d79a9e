# YMYW land-cover classifier: a Dafny model of its client-side logic

YMYW.js is a Google Earth Engine script. The user draws labelled polygons
("chips") and an area of interest. The script then builds a seasonal
composite of Sentinel-2 or Landsat-8 imagery, trains a random forest on
points sampled inside the training chips, classifies the area and
cross-validates the result on the chips it kept back. All image work runs on
the Earth Engine servers. This project models the decisions the script takes
on the client around those calls, and proves what they guarantee:

- `js.dfy` (module `Js`) holds the JavaScript behaviour the script relies on.
  It covers `String.split` on one character, `parseInt(s, 10)` with NaN as a
  value, the decimal text of an integer, and array element assignment with
  growth, holes and negative indices.
- `date_filters.dfy` (`DateFilters`) models `getDateFilters`. An interval
  string such as `"0,3:3,6:6,9:9,12"` becomes one `[start, end)` month window
  per `:`-separated segment.
- `sensors.dfy` (`Sensors`) models the four image collections. It has one
  capability record per collection, and each `switch` of the script is proved
  to agree with that record.
- `cloud_mask.dfy` (`CloudMask`) models the three cloud masks as predicates
  on the quality-band value, written with bitwise AND as in the script. Each
  is proved equivalent to "the flagged bits are zero".
- `composite.dfy` (`Composite`) models the band names of the seasonal
  composite (one group per window, then the terrain bands) and
  `getVizParams`.
- `drawing.dfy` (`Drawing`) models the drawn layers, `getAOI`, `getPalette`
  and `getNames`.
- `partition.dfy` (`Partition`) models the training/validation split of
  `createDataPoints`. It covers `multipoly2poly`, the random column, the
  threshold filters and the collapse of the surviving parts.
- `session.dfy` (`Session`) models the script's globals as a class. It
  covers the slider callbacks, which keep `nValidPoints` in step,
  `showcomposite`, and the requests the Classify and Validate buttons send
  to `createDataPoints`.

Loops of the script are methods with loop invariants, each proved equal to a
specification function. The properties are proved about those functions:
`getDateFilters`, `getPalette`, `getNames`, the composite loop and the layer
loop of `showcomposite`, and `getVizParams`' reassignment of its band names.
The globals the callbacks assign are fields of `Session.Globals`.

Two behaviours of the script worth stating:

- A malformed interval string does not raise an error. `parseInt` gives NaN,
  which the model keeps as a value.
- Training and validation do not draw on independent random streams for the
  split. Both pass the same `crossValSeed` (0) to `randomColumn`, and that is
  what makes the two part sets disjoint when the percentage is unchanged.

## Model

| member | source | states |
|---|---|---|
| Js.Split | YMYW.js:243 | `split` on one character gives one piece more than there are separators, and no piece contains the separator |
| Js.JoinSplit | YMYW.js:243 | joining the pieces of a split with the separator restores the string |
| Js.SplitJoin | YMYW.js:246 | splitting the join of separator-free pieces gives those pieces back |
| Js.ParseInt | YMYW.js:247-248 | `parseInt(s, 10)`: skip leading white space, read an optional sign and the longest run of decimal digits; no digit gives NaN |
| Js.ParseIntOfIntToString | YMYW.js:247-248 | `parseInt` reads the decimal text of any integer back, whatever non-digit text follows it |
| Js.ParseIntWithoutDigits | YMYW.js:247-248 | text without a digit parses to NaN |
| Js.ParseIntFieldMissing | YMYW.js:248 | `parseInt(sp[1], 10)` on a missing second field reads the text "undefined" and gives NaN |
| Js.IntToStringInjective | YMYW.js:261-263 | distinct integers have distinct decimal texts, so the `_k` suffixes of different periods differ |
| Js.ArraySet | YMYW.js:483 | `a[k] = x` sets element k, grows the array with holes when k is past the end, and leaves the elements alone for a negative k |
| DateFilters.SegmentWindow | YMYW.js:246-248 | one segment split at `,`: the window from `parseInt` of the first field and of the second, which is `undefined` when there is no `,` |
| DateFilters.Windows | YMYW.js:242-253 | the windows of an interval string: one SegmentWindow per `:`-separated segment, in order |
| DateFilters.GetDateFilters | YMYW.js:242-253 | the loop returns one window per `:`-separated segment, in order, each the `parseInt` of the segment's two `,` fields |
| DateFilters.SegmentWithoutComma | YMYW.js:246-248 | a segment without `,` gets a NaN end instead of an error, and its start is the `parseInt` of the whole segment |
| DateFilters.WindowsOfFormat | YMYW.js:242-253 | parsing the text of any non-empty list of integer windows gives that list back |
| DateFilters.DefaultIntervals | YMYW.js:56-58 | the default `"0,3:3,6:6,9:9,12"` gives the four quarters [0,3), [3,6), [6,9), [9,12) |
| Sensors.FromId | YMYW.js:81-84 | an identifier selects a collection iff it is one of the four identifiers, and the selected collection has that identifier |
| Sensors.SwitchBandsAndResolution | YMYW.js:188-201 | the switch sets bands and resolution exactly for the four identifiers: nine Sentinel-2 bands at 10 m, six Landsat-8 bands at 30 m |
| Sensors.SwitchCalendarStart | YMYW.js:111-122 | the date slider starts at 2017-01-01 for Sentinel-2 and 2014-01-01 for Landsat-8, and the start stays null for any other identifier |
| Sensors.SwitchCloudProperty | YMYW.js:374-388 | the metadata compared with the cloud ceiling is CLOUDY_PIXEL_PERCENTAGE for Sentinel-2 and CLOUD_COVER for Landsat-8, and none exists for an unknown identifier |
| Sensors.SwitchMultiplier | YMYW.js:358-365 | the int16 multiplier is 1000 except 1 for Landsat-8 SR, and is undefined for an unknown identifier |
| Sensors.SwitchVizMax | YMYW.js:266-296 | the display maximum is 500, 500, 400 and 4000 for the four collections, and none exists for an unknown identifier |
| Sensors.DisplayBandsAvailable | YMYW.js:87-89 | every band list offers B4, B3 and B2 and lists no band twice |
| CloudMask.S2Clear | YMYW.js:302-312 | maskS2clouds: QA AND 2^10 and QA AND 2^11 are both zero |
| CloudMask.L8ToaClear | YMYW.js:317-325 | maskL8TOAclouds: QA AND 2^4 is zero |
| CloudMask.L8SrClear | YMYW.js:330-340 | maskL8SRclouds: QA AND (1 << 3) and QA AND (1 << 5) are both zero |
| CloudMask.Clear | YMYW.js:374-388 | the mask getCollection maps over a collection: maskS2clouds for both Sentinel-2 products, maskL8TOAclouds and maskL8SRclouds for the Landsat-8 ones |
| CloudMask.BitAndPow2 | YMYW.js:305-309 | ANDing with 2^k gives zero exactly when bit k is clear |
| CloudMask.S2ClearBits | YMYW.js:302-312 | a Sentinel-2 pixel is kept iff bits 10 and 11 of QA60 are zero |
| CloudMask.L8ToaClearBits | YMYW.js:317-325 | a Landsat-8 TOA pixel is kept iff bit 4 of BQA is zero |
| CloudMask.L8SrClearBits | YMYW.js:330-340 | a Landsat-8 SR pixel is kept iff bits 3 and 5 of pixel_qa are zero |
| CloudMask.ClearIffFlagsClear | YMYW.js:374-388 | the mask getCollection picks for a collection keeps a pixel iff none of that collection's flag bits is set |
| CloudMask.PixelMaskReadsQaBand | YMYW.js:302-340 | the mask of a pixel reads its collection's quality band (QA60, BQA, pixel_qa) and keeps the pixel iff none of the collection's flag bits is set in that band |
| CloudMask.SameFlagsSameMask | YMYW.js:302-340 | two quality values that agree on the flag bits are masked alike |
| Composite.Layout | YMYW.js:203-207 | the composite's band names: the band group of each window in window order, the names of window k > 0 suffixed `_k`, then elevation, slope and aspect |
| Composite.Groups | YMYW.js:203-206 | n windows give n groups of the band list |
| Composite.GroupsAt | YMYW.js:203-206 | band j of window k sits at index k * B + j, B the number of bands, under the name of window k |
| Composite.LayoutShape | YMYW.js:203-207 | the composite has one name per band for each window, in window order, then elevation, slope and aspect last |
| Composite.SuffixedInjective | YMYW.js:260-264 | for names without `_`, the band name and the period can be read back from the suffixed name |
| Composite.LayoutDistinct | YMYW.js:203-207 | with distinct names without `_` that are not terrain names, no two bands of the composite share a name |
| Composite.CollectionLayoutDistinct | YMYW.js:186-207 | for each of the four collections the composite's band names are distinct, for any number of windows |
| Composite.VizParamsOf | YMYW.js:258-297 | what getVizParams returns: the suffixed r, g and b names, min 0, the collection's max and gamma [0.95, 1.1, 1.0]; null for an unknown identifier |
| Composite.GetVizParams | YMYW.js:258-297 | period 0 keeps r, g and b, period k > 0 appends `_k` to each, and the stretch is the collection's; null iff the identifier is unknown |
| Composite.DisplayedBandsInComposite | YMYW.js:219-222 | the layer 'Period ii+1' shows three bands that all exist in the composite |
| Composite.PeriodLayersInComposite | YMYW.js:203-222 | for a known collection, the composite of n windows has distinct band names and every one of the n period layers shows bands of it |
| Drawing.GetAOI | YMYW.js:439-449 | getAOI: the ee object of the first layer named "aoi", or the fixed error message when there is none |
| Drawing.AoiLayers | YMYW.js:441-444 | the filter keeps exactly the layers named "aoi" (a layer is in the result iff it is in the list and named "aoi"), and its first element is the first such layer |
| Drawing.GetAOISpec | YMYW.js:439-449 | getAOI succeeds iff a layer is named "aoi" and returns the object of the first one; otherwise it fails with the fixed message |
| Drawing.WriteLayer | YMYW.js:477-483 | one call of the layer callback: a layer named "aoi" or without a class writes nothing; otherwise entry `class - 1` is set, as a JavaScript array write |
| Drawing.PaletteOf | YMYW.js:472-488 | the palette: max(1, L - 1) black entries, written over by every layer in order |
| Drawing.GetPalette | YMYW.js:472-488 | the two loops give the initial black entries painted by the class layers in order; a geometry class layer makes the callback throw |
| Drawing.PaletteSlots | YMYW.js:472-488 | slot k holds the colour of the last non-"aoi" layer of class k+1; untouched slots among the first max(1, L-1) stay black, later ones are holes |
| Drawing.SilentLayersIgnored | YMYW.js:478-482 | a layer named "aoi" or without the class property never changes the array |
| Drawing.NamesAsWritten | YMYW.js:454-467 | the names as written: the array `[layers.length]` written over by every layer's name in order |
| Drawing.GetNames | YMYW.js:454-467 | the loop gives the names array as written: `[layers.length]` painted with each class layer's name; a geometry class layer makes the callback throw |
| Drawing.NamesAsWrittenSlots | YMYW.js:455-466 | as written, the names array is as long as the largest class (at least 1), whatever the number of layers, and keeps the `length` method in its first entry when no layer has class 1 |
| Drawing.NamesCounterexample | YMYW.js:455 | for one layer "water" of class 2 the array as written is [`length` method, "water"], where [hole, "water"] is meant |
| Drawing.NameSlots | YMYW.js:454-467 | with one hole per layer as intended, slot k holds the name of the last non-"aoi" layer of class k+1, and untouched slots are holes |
| Partition.MultiPoly2Poly | YMYW.js:495-504 | one part per polygon of a drawn feature, indexed 0 .. size - 1, with the parent's properties and its random value under the seed |
| Partition.Collapse | YMYW.js:512-515 | the feature built from the surviving parts: their polygons and the first survivor's land_class; none when nothing survives |
| Partition.SelectFeature | YMYW.js:510-516 | what one drawn feature contributes: its parts, filtered by the expression, collapsed |
| Partition.TrainingObjects | YMYW.js:505-508 | the features of the layers whose ee object is a Feature, in layer order |
| Partition.LandFeatures | YMYW.js:509-517 | land_features: one collapsed feature per training object, or none when one of them keeps no part |
| Partition.Filter | YMYW.js:513 | the filter keeps exactly the parts whose random value passes the expression |
| Partition.MultiPoly2PolyParts | YMYW.js:495-504 | multipoly2poly makes one feature per polygon part, each with the parent's properties, and the parts together give the parent's geometry |
| Partition.TrainingValidationComplementary | YMYW.js:982 | for the same percentage, every value passes exactly one of `<= 1 - p/100` and `> 1 - p/100` |
| Partition.FilterSplits | YMYW.js:513 | a filter and its complement keep every part exactly once, and every polygon exactly once |
| Partition.TrainingValidationSplitFeature | YMYW.js:982-983 | with the shared seed and an unchanged percentage, the training and validation parts of a drawn feature are disjoint and together make up the feature |
| Partition.DisjointIff | YMYW.js:165 | the training filter at p and the validation filter at q never keep the same value in [0,1) iff q <= p |
| Partition.CoverIff | YMYW.js:982 | together they keep every value in [0,1) iff q >= p |
| Partition.TrainingShrinks | YMYW.js:165 | a larger percentage kept back never adds a training part |
| Partition.SelectFeatureSpec | YMYW.js:510-516 | a drawn feature yields a collapsed feature iff some part passes; the collapsed feature carries the parent's land_class and the survivors' polygons |
| Partition.LandFeaturesSpec | YMYW.js:509-517 | land_features exists iff every drawn feature keeps a part, and then it holds one collapsed feature per drawn feature, in order |
| Partition.TrainingObjectsSpec | YMYW.js:505-508 | exactly the layers whose ee object is a Feature take part |
| Session.ValidPointCount | YMYW.js:851-855 | nValidPoints: `round(nTrain * p / (100 - p))`, computed as a quotient of exact integers |
| Session.ValidPointCountNearest | YMYW.js:854 | the result is the integer nearest to nTrain * p / (100 - p), with halves rounded up |
| Session.NearestUnique | YMYW.js:879 | only one integer lies within half a step of the quotient, so the rounding is determined |
| Session.DefaultValidPointCount | YMYW.js:96-98 | the defaults 1400 and 30 give the initial 600 |
| Session.ValidPointCountMonotone | YMYW.js:851-855 | more training points never give fewer validation points |
| Session.ValidPointCountAtMostTrain | YMYW.js:876-880 | on the slider range (p at most 50) there are never more validation than training points |
| Session.StackComposite | YMYW.js:203-207 | the composite loop builds the window groups in order and appends the terrain bands |
| Session.PeriodLayers | YMYW.js:219-222 | the layer loop builds one display layer per window, the layer of window ii with getVizParams for period ii |
| Session.Globals.constructor | YMYW.js:94-122 | the initial state: the collection MyImageCollection or Sentinel-2 SR, its calendar start, cloud 30, 100 trees, 1400 and 600 points, 30 per cent, nothing computed |
| Session.Globals.ChangeTrain | YMYW.js:851-855 | the new training count is stored and nValidPoints recomputed from it; nothing else changes |
| Session.Globals.ChangePropCrossVali | YMYW.js:876-880 | the new percentage is stored, nValidPoints is recomputed and stays at most nTrainPoints; nothing else changes |
| Session.Globals.ChangeCloud | YMYW.js:860-863 | only the cloud ceiling changes |
| Session.Globals.ChangeTrees | YMYW.js:868-871 | only the number of trees changes |
| Session.Globals.SetBandsAndResolution | YMYW.js:188-201 | bands and resolution become those of the switched collection, and the state stays consistent |
| Session.Globals.ShowPeriods | YMYW.js:202-222 | the composite becomes the window groups plus terrain, with distinct names, and there is one period layer per window showing bands of it |
| Session.Globals.ShowComposite | YMYW.js:182-227 | the selected collection sets bands and resolution, and the composite becomes its window groups plus terrain, with distinct names; every period layer shows bands of the composite; then getAOI fails iff no drawn layer is named "aoi"; an unknown identifier changes neither and stops before getAOI |
| Session.Globals.TrainingRequest | YMYW.js:158-166 | with a collection identifier outside the four, showcomposite throws first, and with no layer named "aoi" main stops at getAOI; in both cases no request is built; otherwise Classify samples nTrainPoints per class with seed 7638 from the features filtered by `random <= 1 - PropCrossVali/100` under seed 0 |
| Session.Globals.ValidationRequest | YMYW.js:981-983 | Validate samples nValidPoints per class with seed 2982 from the features filtered by `random > 1 - PropCrossVali/100` under the same seed 0 |

## Left out

- Earth Engine server computations are left out because their behaviour is
  not in the script. This covers compositing (`median`/`mean`), the date
  and cloud-cover filters, `updateMask`, `randomColumn`'s generator,
  `paint`, `stratifiedSample`, `sampleRegions`, the random forest,
  `classify`, `explain` and the accuracy measures. The random column is a
  function parameter with values in [0, 1).
- The date arithmetic `baseDate.advance(n, 'month')` and `ee.Filter.date`
  are left out. A window is kept as its pair of month offsets.
  getStartDateCallback, which only replaces `baseDate`, is left out too.
- Reflectance scaling (`divide(10000)`, `multiply`, `toInt16`) is left out as
  numeric image arithmetic. Only the choice of multiplier is modelled.
- The `stat` switch is left out, because `stat` is always `median`.
- Map layers, panels, sliders as widgets, the legend, `drawObject`,
  `drawAOI`, `drawClassifiedMap`, `reCentre`, `print`, exports and charts
  are display code. The sliders' ranges appear as preconditions of the
  callbacks.
- `generatePoints` and `removeProperty` are left out, because nothing calls
  them.
- Js.ParseInt: does not model the loss of precision of JavaScript numbers
  beyond 2^53, because window offsets are small integers.
- Partition.Threshold: uses exact reals where the script compares doubles.
  The training and validation filters share the same computed threshold, so
  complementarity does not depend on rounding.
- Partition.Collapse: keeps the surviving parts as a list of polygons.
  `geometry()` of the collection is their geometric union, which is not
  modelled.
- Drawing.ClassValue: only integer class values on Feature layers are
  modelled. A feature collection's `get` of a missing property yields null,
  which indexes the array with -1 and writes no element, so the model
  treats it as no class.
- Session.ValidPointCount: computes with exact integers where Earth Engine
  divides doubles before `round`. Ties are rounded up; the script does not
  pin the tie rule beyond `round()`.
- Session.Globals.ShowComposite: for an identifier outside the four
  collections, getComposite fails on the first window. The model reports
  `ok == false` and leaves the composite as it was; the error itself is not
  modelled. When no drawn layer is named "aoi", the exception getAOI
  raises is returned as `aoi`, an error value, after the globals have been
  assigned; the abrupt end of the callback is not modelled otherwise.
- Composite.Group: the `_k` names of later windows come from Earth
  Engine's `addBands`, which renames a band whose name is already taken
  `foo_1`, `foo_2` and so on. The model assumes that renaming rule; the
  script does not spell it out.
- Composite.Layout: assumes every window's filtered collection keeps at
  least one image, so that every window contributes one group of bands.
  The script does not check this. With the cloud slider at 0,
  `ee.Filter.lt(cloudParam, 0)` keeps no image, and a window past the
  collection's last image keeps none either. The `median()` of an empty
  collection has no bands, so `addBands` adds nothing for that window and
  the `_k` suffixes of later windows shift down. With every window empty,
  the composite is only elevation, slope and aspect, and the 'Period'
  layers name bands that do not exist. Session.Globals.ShowPeriods,
  Session.Globals.ShowComposite and Composite.PeriodLayersInComposite
  state the layout and the displayed bands under the same assumption.
- Partition.MultiPoly2Poly: treats a feature's geometry as a list of
  polygons. For a feature whose geometry is one Polygon,
  `coordinates()` lists its rings, so a polygon with a hole becomes one
  filled part per ring in the script. The two agree for one-ring polygons
  such as drawn rectangles.
- Js.ArraySet: treats every non-negative index as an array element. In
  JavaScript an index of 2^32 - 1 or more names an ordinary property and
  does not grow the array; class values in the script are small.

## Findings

| source | as written | input that shows it | evidently intended | confidence | as-written member | corrected member |
|---|---|---|---|---|---|---|
| YMYW.js:455 | `new Array(layers.length)` passes the layer list's `length` method (getPalette calls it as `layers.length()`), so the array starts as the one element `[length]` | one layer "water" with land_class 2: the names are [`length` method, "water"] | `new Array(layers.length())`: one empty slot per layer, giving [hole, "water"] | medium, not executed | Drawing.NamesCounterexample | Drawing.NameSlots |

`Drawing.GetNames` models the code as written. `Drawing.NamesOf` is the
intended array, and `Drawing.NameSlots` proves what each of its slots holds.
