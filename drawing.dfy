// The drawn layers of the map's drawing tools and what the script reads from
// them: the area of interest (getAOI) and the legend arrays built from the
// class layers (getPalette, getNames).

module Drawing {
  import opened Js

  type Point = (real, real)

  /** A polygon as its list of rings, as `coordinates().get(i)` gives it. */
  type Polygon = seq<seq<Point>>

  /** An ee.Feature: its properties (only integer ones matter here) and its
      geometry as the list of polygon parts of a multipolygon. */
  datatype Feature = Feature(properties: map<string, int>, geometry: seq<Polygon>)

  /** What a drawn layer's getEeObject() returns, by the layer's import type. */
  datatype EeObject =
    | EeGeometry(parts: seq<Polygon>)
    | EeFeature(feature: Feature)
    | EeFeatureCollection(features: seq<Feature>)

  /** The class name ee reports for the object, as `name()` does. */
  function EeName(o: EeObject): string
  {
    match o
    case EeGeometry(_) => "Geometry"
    case EeFeature(_) => "Feature"
    case EeFeatureCollection(_) => "FeatureCollection"
  }

  /** A drawn layer: its name, its display colour and its ee object. */
  datatype Layer = Layer(name: string, color: string, obj: EeObject)

  const Aoi := "aoi"
  const LandClass := "land_class"
  const Black := "#000000"
  const AoiMessage := "Error - Draw a rectangle polygon and name it \"aoi\" to define the Area of Interest"

  // ---------------------------------------------------------------------------
  // getAOI

  /** `layers.filter(l => l.get('name') === 'aoi')`, in layer order. */
  function AoiLayers(layers: seq<Layer>): (r: seq<Layer>)
    ensures forall i :: 0 <= i < |r| ==> r[i].name == Aoi && r[i] in layers
    ensures forall l :: l in r <==> l in layers && l.name == Aoi
    ensures r == [] <==> forall i :: 0 <= i < |layers| ==> layers[i].name != Aoi
    ensures r != [] ==> exists i :: 0 <= i < |layers| && layers[i] == r[0] &&
                          forall j :: 0 <= j < i ==> layers[j].name != Aoi
  {
    if layers == [] then []
    else
      var rest := AoiLayers(layers[1..]);
      assert forall l :: l in layers <==> l == layers[0] || l in layers[1..];
      if layers[0].name == Aoi then [layers[0]] + rest
      else
        assert forall x :: x in layers[1..] ==> x in layers;
        if rest != [] then
          var i :| 0 <= i < |layers[1..]| && layers[1..][i] == rest[0] &&
                   forall j :: 0 <= j < i ==> layers[1..][j].name != Aoi;
          assert layers[i + 1] == rest[0];
          rest
        else rest
  }

  /** getAOI: the ee object of the first layer named "aoi"; otherwise the
      lookup throws, and the script rethrows its fixed message. */
  function GetAOI(layers: seq<Layer>): Result<EeObject>
  {
    var found := AoiLayers(layers);
    if found == [] then Err(AoiMessage) else Ok(found[0].obj)
  }

  lemma GetAOISpec(layers: seq<Layer>)
    ensures GetAOI(layers).Ok? <==> exists i :: 0 <= i < |layers| && layers[i].name == Aoi
    ensures GetAOI(layers).Err? ==> GetAOI(layers).message == AoiMessage
    ensures GetAOI(layers).Ok? ==>
              exists i :: 0 <= i < |layers| && layers[i].name == Aoi && GetAOI(layers).value == layers[i].obj &&
                forall j :: 0 <= j < i ==> layers[j].name != Aoi
  {
    var found := AoiLayers(layers);
    if found != [] {
      var i :| 0 <= i < |layers| && layers[i] == found[0] && forall j :: 0 <= j < i ==> layers[j].name != Aoi;
      assert layers[i].name == Aoi;
    }
  }

  // ---------------------------------------------------------------------------
  // getPalette and getNames

  /** `getEeObject().get(property)` exists for features and collections; an
      ee.Geometry has no `get`, so the call throws for a geometry layer. */
  predicate HasGet(o: EeObject)
  {
    !o.EeGeometry?
  }

  /** A layer on which the callback reaches the `get` call and throws. */
  predicate Throws(l: Layer)
  {
    l.name != Aoi && !HasGet(l.obj)
  }

  predicate AnyThrows(ls: seq<Layer>)
  {
    exists k :: 0 <= k < |ls| && Throws(ls[k])
  }

  /** `getEeObject().get(property).getInfo()`: the class of a feature layer,
      or nothing when the property is missing (a null class indexes the
      array with -1, which writes no element). */
  function ClassValue(o: EeObject, property: string): Option<int>
  {
    match o
    case EeFeature(f) => if property in f.properties then Some(f.properties[property]) else None
    case _ => None
  }

  /** The text getPalette stores for a layer. */
  function Colour(l: Layer): string
  {
    l.color
  }

  /** The text the names array holds for a layer. */
  function Name(l: Layer): string
  {
    l.name
  }

  /** The callback mapped over the layers: skip "aoi" and class-less layers,
      otherwise `array[value - 1] = label`. */
  function WriteLayer<T>(a: seq<Option<T>>, l: Layer, property: string, text: Layer -> T): seq<Option<T>>
  {
    if l.name == Aoi then a
    else
      match ClassValue(l.obj, property)
      case None => a
      case Some(v) => ArraySet(a, v - 1, text(l))
  }

  /** The array after the callback has run over `ls` in order. */
  function Paint<T>(a: seq<Option<T>>, ls: seq<Layer>, property: string, text: Layer -> T): seq<Option<T>>
    decreases |ls|
  {
    if ls == [] then a
    else WriteLayer(Paint(a, ls[..|ls| - 1], property, text), ls[|ls| - 1], property, text)
  }

  /** The palette before the callback: one black entry, then one more for
      each ii with 1 <= ii < n - 1. */
  function InitialPalette(n: nat): seq<Option<string>>
  {
    seq(if n >= 2 then n - 1 else 1, _ => Some(Black))
  }

  /** The palette getPalette returns when no layer throws. */
  function PaletteOf(layers: seq<Layer>, property: string): seq<Option<string>>
  {
    Paint(InitialPalette(|layers|), layers, property, Colour)
  }

  /** An entry of getNames' array: a layer name, or the `length` method of
      the drawing tools' layer list. */
  datatype NameEntry = Text(text: string) | LengthMethod

  function NameText(l: Layer): NameEntry
  {
    Text(l.name)
  }

  /** getNames as written: `new Array(layers.length)` passes the `length`
      method itself (getPalette calls it as `layers.length()`), which makes
      a one-element array holding that method. */
  function NamesAsWritten(layers: seq<Layer>, property: string): seq<Option<NameEntry>>
  {
    Paint([Some(LengthMethod)], layers, property, NameText)
  }

  /** The names array as evidently intended: one empty slot per layer. */
  function NamesOf(layers: seq<Layer>, property: string): seq<Option<string>>
  {
    Paint(seq(|layers|, _ => None), layers, property, Name)
  }

  lemma PrefixStep(layers: seq<Layer>, jj: nat)
    requires jj < |layers|
    ensures layers[..jj + 1][..jj] == layers[..jj]
    ensures AnyThrows(layers[..jj + 1]) <==> AnyThrows(layers[..jj]) || Throws(layers[jj])
  {
    assert layers[..jj + 1][jj] == layers[jj];
  }

  /** getPalette: black entries, then each class layer's colour at its slot;
      None when a geometry layer makes the callback throw. */
  method GetPalette(layers: seq<Layer>, property: string) returns (palette: Option<seq<Option<string>>>)
    ensures palette == if AnyThrows(layers) then None else Some(PaletteOf(layers, property))
  {
    var slots := [Some(Black)];
    var ii := 1;
    ghost var len := |InitialPalette(|layers|)|;
    while ii < |layers| - 1
      invariant 1 <= ii <= len && |slots| == ii
      invariant forall k :: 0 <= k < ii ==> slots[k] == Some(Black)
    {
      slots := slots + [Some(Black)];
      ii := ii + 1;
    }
    assert slots == InitialPalette(|layers|);
    var jj := 0;
    while jj < |layers|
      invariant 0 <= jj <= |layers|
      invariant !AnyThrows(layers[..jj])
      invariant slots == Paint(InitialPalette(|layers|), layers[..jj], property, Colour)
    {
      var f := layers[jj];
      PrefixStep(layers, jj);
      if f.name != Aoi {
        var colour := f.color;
        if !HasGet(f.obj) {
          assert Throws(layers[jj]);
          return None;
        }
        var value := ClassValue(f.obj, property);
        if value.Some? {
          slots := ArraySet(slots, value.value - 1, colour);
        }
      }
      jj := jj + 1;
    }
    assert layers[..|layers|] == layers;
    palette := Some(slots);
  }

  /** getNames: each class layer's name at its slot of the array built from
      `layers.length`; None when a geometry layer makes the callback throw. */
  method GetNames(layers: seq<Layer>, property: string) returns (names: Option<seq<Option<NameEntry>>>)
    ensures names == if AnyThrows(layers) then None else Some(NamesAsWritten(layers, property))
  {
    var slots: seq<Option<NameEntry>> := [Some(LengthMethod)];
    var jj := 0;
    while jj < |layers|
      invariant 0 <= jj <= |layers|
      invariant !AnyThrows(layers[..jj])
      invariant slots == Paint([Some(LengthMethod)], layers[..jj], property, NameText)
    {
      var f := layers[jj];
      PrefixStep(layers, jj);
      var name := f.name;
      if name != Aoi {
        if !HasGet(f.obj) {
          assert Throws(layers[jj]);
          return None;
        }
        var value := ClassValue(f.obj, property);
        if value.Some? {
          slots := ArraySet(slots, value.value - 1, Text(name));
        }
      }
      jj := jj + 1;
    }
    assert layers[..|layers|] == layers;
    names := Some(slots);
  }

  // ---------------------------------------------------------------------------
  // What ends up in each slot

  /** Layer `l` writes slot v - 1. */
  predicate Writes(l: Layer, property: string, v: int)
  {
    l.name != Aoi && ClassValue(l.obj, property) == Some(v)
  }

  /** The label of the last layer of `ls` that writes class v, if any. */
  function LastWriter<T>(ls: seq<Layer>, property: string, text: Layer -> T, v: int): Option<T>
    decreases |ls|
  {
    if ls == [] then None
    else if Writes(ls[|ls| - 1], property, v) then Some(text(ls[|ls| - 1]))
    else LastWriter(ls[..|ls| - 1], property, text, v)
  }

  /** The largest class written, or 0 when no layer writes a slot. */
  function MaxClass(ls: seq<Layer>, property: string): nat
    decreases |ls|
  {
    if ls == [] then 0
    else
      var m := MaxClass(ls[..|ls| - 1], property);
      var l := ls[|ls| - 1];
      if l.name != Aoi && ClassValue(l.obj, property).Some? && ClassValue(l.obj, property).value > m
      then ClassValue(l.obj, property).value else m
  }

  lemma {:induction false} LastWriterBounded<T>(ls: seq<Layer>, property: string, text: Layer -> T, v: int)
    requires v >= 1 && LastWriter(ls, property, text, v).Some?
    ensures v <= MaxClass(ls, property)
    decreases |ls|
  {
    if !Writes(ls[|ls| - 1], property, v) {
      LastWriterBounded(ls[..|ls| - 1], property, text, v);
    }
  }

  /** Slot k holds the label of the last layer of class k + 1; a slot no
      layer writes keeps its initial entry, or is a hole past the initial
      length; the array is as long as the initial one or the largest class. */
  lemma {:induction false} PaintSlots<T>(a: seq<Option<T>>, ls: seq<Layer>, property: string, text: Layer -> T)
    ensures |Paint(a, ls, property, text)| == if |a| < MaxClass(ls, property) then MaxClass(ls, property) else |a|
    ensures forall k :: 0 <= k < |Paint(a, ls, property, text)| ==>
              Paint(a, ls, property, text)[k] ==
                match LastWriter(ls, property, text, k + 1)
                case Some(x) => Some(x)
                case None => if k < |a| then a[k] else None
    decreases |ls|
  {
    if ls != [] {
      var prefix, l := ls[..|ls| - 1], ls[|ls| - 1];
      PaintSlots(a, prefix, property, text);
      var p := Paint(a, prefix, property, text);
      var r := Paint(a, ls, property, text);
      assert r == WriteLayer(p, l, property, text);
      forall k | 0 <= k < |r|
        ensures r[k] == match LastWriter(ls, property, text, k + 1)
                        case Some(x) => Some(x)
                        case None => if k < |a| then a[k] else None
      {
        if !Writes(l, property, k + 1) {
          assert LastWriter(ls, property, text, k + 1) == LastWriter(prefix, property, text, k + 1);
          if k >= |p| {
            if LastWriter(prefix, property, text, k + 1).Some? {
              LastWriterBounded(prefix, property, text, k + 1);
            }
          }
        }
      }
    }
  }

  /** The palette: slot k is the colour of the last non-"aoi" layer of class
      k + 1; untouched slots among the first max(1, L - 1) stay black. */
  lemma PaletteSlots(layers: seq<Layer>, property: string)
    ensures var n := |InitialPalette(|layers|)|;
            |PaletteOf(layers, property)| == if n < MaxClass(layers, property) then MaxClass(layers, property) else n
    ensures forall k :: 0 <= k < |PaletteOf(layers, property)| ==>
              PaletteOf(layers, property)[k] ==
                match LastWriter(layers, property, Colour, k + 1)
                case Some(c) => Some(c)
                case None => if k < |InitialPalette(|layers|)| then Some(Black) else None
  {
    PaintSlots(InitialPalette(|layers|), layers, property, Colour);
  }

  /** The intended names: slot k is the name of the last non-"aoi" layer of
      class k + 1; a slot no layer writes is empty; one slot per layer at
      least. */
  lemma NameSlots(layers: seq<Layer>, property: string)
    ensures |NamesOf(layers, property)| == if |layers| < MaxClass(layers, property) then MaxClass(layers, property) else |layers|
    ensures forall k :: 0 <= k < |NamesOf(layers, property)| ==>
              NamesOf(layers, property)[k] ==
                match LastWriter(layers, property, Name, k + 1)
                case Some(x) => Some(x)
                case None => None
  {
    PaintSlots(seq(|layers|, _ => None), layers, property, Name);
  }

  /** The names as written: as long as the largest class (at least one),
      whatever the number of layers, with the `length` method left in the
      first entry when no layer has class 1. */
  lemma NamesAsWrittenSlots(layers: seq<Layer>, property: string)
    ensures |NamesAsWritten(layers, property)| == if MaxClass(layers, property) < 1 then 1 else MaxClass(layers, property)
    ensures NamesAsWritten(layers, property)[0] ==
              match LastWriter(layers, property, NameText, 1)
              case Some(x) => Some(x)
              case None => Some(LengthMethod)
    ensures forall k :: 1 <= k < |NamesAsWritten(layers, property)| ==>
              NamesAsWritten(layers, property)[k] ==
                match LastWriter(layers, property, NameText, k + 1)
                case Some(x) => Some(x)
                case None => None
  {
    PaintSlots([Some(LengthMethod)], layers, property, NameText);
  }

  /** One layer "water" of class 2: the names array as written starts with
      the `length` method, where one empty slot per layer was meant. */
  lemma NamesCounterexample()
    ensures var layers := [Layer("water", "#0000ff", EeFeature(Feature(map[LandClass := 2], [])))];
            NamesAsWritten(layers, LandClass) == [Some(LengthMethod), Some(Text("water"))] &&
            NamesOf(layers, LandClass) == [None, Some("water")]
  {
    var layers := [Layer("water", "#0000ff", EeFeature(Feature(map[LandClass := 2], [])))];
    assert layers[..0] == [];
    assert ClassValue(layers[0].obj, LandClass) == Some(2);
    var written := ArraySet([Some(LengthMethod)], 1, Text("water"));
    assert Paint([Some(LengthMethod)], layers[..0], LandClass, NameText) == [Some(LengthMethod)];
    assert WriteLayer([Some(LengthMethod)], layers[0], LandClass, NameText) == written;
    assert NamesAsWritten(layers, LandClass) == written;
    assert |written| == 2 && written[0] == Some(LengthMethod) && written[1] == Some(Text("water"));
    var intended := ArraySet(seq(1, _ => None), 1, "water");
    assert Paint(seq(1, _ => None), layers[..0], LandClass, Name) == seq(1, _ => None);
    assert WriteLayer(seq(1, _ => None), layers[0], LandClass, Name) == intended;
    assert NamesOf(layers, LandClass) == intended;
    assert |intended| == 2 && intended[0] == None && intended[1] == Some("water");
  }

  /** Layers named "aoi" and layers without the class property never change
      the array. */
  lemma {:induction false} SilentLayersIgnored<T>(a: seq<Option<T>>, ls: seq<Layer>, l: Layer, property: string, text: Layer -> T)
    requires l.name == Aoi || ClassValue(l.obj, property).None?
    ensures Paint(a, ls + [l], property, text) == Paint(a, ls, property, text)
  {
    assert (ls + [l])[..|ls + [l]| - 1] == ls;
  }
}
