// The client-side part of createDataPoints: each drawn feature is split into
// one feature per polygon part (multipoly2poly), every part gets a 'random'
// column from randomColumn(crossValSeed), the parts are filtered by
// "random <= 1 - p/100" for training or "random > 1 - p/100" for validation,
// and the survivors of each feature are collapsed into one feature carrying
// the land_class of the first survivor.  Painting the class image and the
// stratified sampling that follow are Earth Engine computations and are not
// modelled.

module Partition {
  import opened Js
  import opened Drawing

  /** A value in [0, 1): the range of randomColumn's 'uniform' column. */
  type UnitInterval = r: real | 0.0 <= r < 1.0 witness 0.0

  /** randomColumn('random', seed, 'uniform') on the parts of a feature: the
      value part i of feature f receives under `seed`.  The generator is not
      modelled; a fixed seed, feature and part give a fixed value. */
  type RandomColumn = (int, Feature, nat) -> UnitInterval

  /** One polygon part of a drawn feature with its 'random' column. */
  datatype Part = Part(index: nat, feature: Feature, random: real)

  /** multipoly2poly: one feature per polygon part, indices 0 .. size-1,
      each with the parent's properties, then the random column. */
  function MultiPoly2Poly(f: Feature, crossValSeed: int, rand: RandomColumn): seq<Part>
  {
    seq(|f.geometry|, i requires 0 <= i < |f.geometry| =>
      Part(i, Feature(f.properties, [f.geometry[i]]), rand(crossValSeed, f, i)))
  }

  /** `collection.geometry()`: the polygons of the parts, in order. */
  function Union(ps: seq<Part>): seq<Polygon>
  {
    if ps == [] then [] else ps[0].feature.geometry + Union(ps[1..])
  }

  // ---------------------------------------------------------------------------
  // The filter expressions

  /** "random <= t" and "random > t". */
  datatype Inclusion = AtMost(t: real) | Above(t: real)

  predicate Keeps(e: Inclusion, r: real)
  {
    match e
    case AtMost(t) => r <= t
    case Above(t) => r > t
  }

  function Complement(e: Inclusion): Inclusion
  {
    match e
    case AtMost(t) => Above(t)
    case Above(t) => AtMost(t)
  }

  /** `1 - PropCrossVali / 100`, for the percentage p of parts kept back. */
  function Threshold(p: int): real
  {
    1.0 - (p as real) / 100.0
  }

  /** main: `'<= ' + (1 - PropCrossVali/100)`. */
  function TrainingInclusion(p: int): Inclusion
  {
    AtMost(Threshold(p))
  }

  /** validateCallback: `'> ' + (1 - PropCrossVali/100)`. */
  function ValidationInclusion(p: int): Inclusion
  {
    Above(Threshold(p))
  }

  /** `collection.filter('random ' + expression)`, keeping the order. */
  function Filter(ps: seq<Part>, e: Inclusion): (r: seq<Part>)
    ensures |r| <= |ps|
    ensures forall q :: q in r <==> q in ps && Keeps(e, q.random)
  {
    if ps == [] then []
    else (if Keeps(e, ps[0].random) then [ps[0]] else []) + Filter(ps[1..], e)
  }

  /** The feature built from the survivors of one drawn feature: their
      geometry and `{land_class: first().get('land_class')}`.  With no
      survivor `first()` is null and the Earth Engine computation fails. */
  function Collapse(survivors: seq<Part>): Option<Feature>
  {
    if survivors == [] then None
    else
      var first := survivors[0].feature.properties;
      Some(Feature(if LandClass in first then map[LandClass := first[LandClass]] else map[], Union(survivors)))
  }

  /** What one drawn feature contributes under a filter expression. */
  function SelectFeature(f: Feature, e: Inclusion, crossValSeed: int, rand: RandomColumn): Option<Feature>
  {
    Collapse(Filter(MultiPoly2Poly(f, crossValSeed, rand), e))
  }

  /** The features of the layers whose ee object is a Feature, in layer order. */
  function TrainingObjects(layers: seq<Layer>): (r: seq<Feature>)
    ensures |r| <= |layers|
  {
    if layers == [] then []
    else
      (if EeName(layers[0].obj) == "Feature" then [layers[0].obj.feature] else []) + TrainingObjects(layers[1..])
  }

  /** The values of a list of options, or None as soon as one is missing. */
  function AllSome<T>(xs: seq<Option<T>>): Option<seq<T>>
  {
    if xs == [] then Some([])
    else
      match (xs[0], AllSome(xs[1..]))
      case (Some(x), Some(rest)) => Some([x] + rest)
      case _ => None
  }

  /** `land_features`: one collapsed feature per drawn Feature layer, or
      None when some drawn feature has no surviving part. */
  function LandFeatures(fs: seq<Feature>, e: Inclusion, crossValSeed: int, rand: RandomColumn): Option<seq<Feature>>
  {
    AllSome(seq(|fs|, k requires 0 <= k < |fs| => SelectFeature(fs[k], e, crossValSeed, rand)))
  }

  // ---------------------------------------------------------------------------
  // Properties

  /** Every part of a drawn feature carries the parent's properties, and
      putting the parts back together gives the parent's geometry. */
  lemma {:induction false} UnionOfParts(ps: seq<Part>, f: Feature, from: nat)
    requires from <= |f.geometry| && |ps| == |f.geometry| - from
    requires forall i :: 0 <= i < |ps| ==> ps[i].feature.geometry == [f.geometry[from + i]]
    ensures Union(ps) == f.geometry[from..]
    decreases |ps|
  {
    if ps != [] {
      UnionOfParts(ps[1..], f, from + 1);
      assert f.geometry[from..] == [f.geometry[from]] + f.geometry[from + 1..];
    }
  }

  lemma MultiPoly2PolyParts(f: Feature, crossValSeed: int, rand: RandomColumn)
    ensures |MultiPoly2Poly(f, crossValSeed, rand)| == |f.geometry|
    ensures forall i :: 0 <= i < |f.geometry| ==>
              MultiPoly2Poly(f, crossValSeed, rand)[i].feature.properties == f.properties
    ensures Union(MultiPoly2Poly(f, crossValSeed, rand)) == f.geometry
  {
    UnionOfParts(MultiPoly2Poly(f, crossValSeed, rand), f, 0);
  }

  /** Training and validation with the same p are complementary: every
      partition value passes exactly one of the two filters. */
  lemma TrainingValidationComplementary(p: int, r: real)
    ensures Keeps(TrainingInclusion(p), r) != Keeps(ValidationInclusion(p), r)
    ensures ValidationInclusion(p) == Complement(TrainingInclusion(p))
  {
  }

  /** A filter and its complement split a part list between them: together
      they keep every part exactly once, and so every polygon. */
  lemma UnionCons(p: Part, rest: seq<Part>)
    ensures Union([p] + rest) == p.feature.geometry + Union(rest)
  {
    assert ([p] + rest)[1..] == rest;
  }

  lemma {:induction false} FilterSplits(ps: seq<Part>, e: Inclusion)
    ensures |Filter(ps, e)| + |Filter(ps, Complement(e))| == |ps|
    ensures multiset(Union(Filter(ps, e))) + multiset(Union(Filter(ps, Complement(e)))) == multiset(Union(ps))
    decreases |ps|
  {
    if ps != [] {
      FilterSplits(ps[1..], e);
      var a, b := Filter(ps[1..], e), Filter(ps[1..], Complement(e));
      var g := ps[0].feature.geometry;
      UnionCons(ps[0], ps[1..]);
      assert [ps[0]] + ps[1..] == ps;
      if Keeps(e, ps[0].random) {
        assert Filter(ps, e) == [ps[0]] + a;
        assert Filter(ps, Complement(e)) == b;
        UnionCons(ps[0], a);
        assert multiset(Union(Filter(ps, e))) == multiset(g) + multiset(Union(a));
      } else {
        assert Filter(ps, e) == a;
        assert Filter(ps, Complement(e)) == [ps[0]] + b;
        UnionCons(ps[0], b);
        assert multiset(Union(Filter(ps, Complement(e)))) == multiset(g) + multiset(Union(b));
      }
    }
  }

  /** With the same seed and the same p at the Classify and the Validate
      clicks, the training and validation parts of a drawn feature are
      disjoint and together make up the whole feature. */
  lemma TrainingValidationSplitFeature(f: Feature, p: int, crossValSeed: int, rand: RandomColumn)
    ensures var ps := MultiPoly2Poly(f, crossValSeed, rand);
            var train, valid := Filter(ps, TrainingInclusion(p)), Filter(ps, ValidationInclusion(p));
            (forall q :: q in train ==> q !in valid) &&
            |train| + |valid| == |f.geometry| &&
            multiset(Union(train)) + multiset(Union(valid)) == multiset(f.geometry)
  {
    var ps := MultiPoly2Poly(f, crossValSeed, rand);
    MultiPoly2PolyParts(f, crossValSeed, rand);
    FilterSplits(ps, TrainingInclusion(p));
  }

  /** For percentages within [0, 100], every partition value in [0, 1) is
      kept by at most one of the training filter for p at Classify and the
      validation filter for q at Validate iff q <= p. */
  lemma DisjointIff(p: int, q: int)
    requires 0 <= p <= 100 && 0 <= q <= 100
    ensures (forall r: UnitInterval :: !(Keeps(TrainingInclusion(p), r) && Keeps(ValidationInclusion(q), r))) <==> q <= p
  {
    if q > p {
      var r: UnitInterval := if p > 0 then Threshold(p) else (Threshold(q) + 1.0) / 2.0;
      assert Keeps(TrainingInclusion(p), r) && Keeps(ValidationInclusion(q), r);
    }
  }

  /** ... and every value is kept by at least one of them iff q >= p. */
  lemma CoverIff(p: int, q: int)
    requires 0 <= p <= 100 && 0 <= q <= 100
    ensures (forall r: UnitInterval :: Keeps(TrainingInclusion(p), r) || Keeps(ValidationInclusion(q), r)) <==> q >= p
  {
    if q < p {
      var r: UnitInterval := (Threshold(p) + Threshold(q)) / 2.0;
      assert !Keeps(TrainingInclusion(p), r) && !Keeps(ValidationInclusion(q), r);
    }
  }

  /** A drawn feature yields a collapsed feature iff some part passes the
      filter; the collapsed feature then has the parent's land_class (or
      none when the parent has none) and the geometry of the survivors. */
  lemma SelectFeatureSpec(f: Feature, e: Inclusion, crossValSeed: int, rand: RandomColumn)
    ensures SelectFeature(f, e, crossValSeed, rand).Some? <==>
              exists i :: 0 <= i < |f.geometry| && Keeps(e, rand(crossValSeed, f, i))
    ensures SelectFeature(f, e, crossValSeed, rand).Some? ==>
              var g := SelectFeature(f, e, crossValSeed, rand).value;
              (LandClass in g.properties <==> LandClass in f.properties) &&
              (LandClass in f.properties ==> g.properties[LandClass] == f.properties[LandClass]) &&
              g.geometry == Union(Filter(MultiPoly2Poly(f, crossValSeed, rand), e))
  {
    var ps := MultiPoly2Poly(f, crossValSeed, rand);
    var survivors := Filter(ps, e);
    if survivors != [] {
      assert survivors[0] in ps;
    } else {
      forall i | 0 <= i < |f.geometry|
        ensures !Keeps(e, rand(crossValSeed, f, i))
      {
        assert ps[i] in ps;
      }
    }
    if exists i :: 0 <= i < |f.geometry| && Keeps(e, rand(crossValSeed, f, i)) {
      var i :| 0 <= i < |f.geometry| && Keeps(e, rand(crossValSeed, f, i));
      assert ps[i] in survivors;
    }
  }

  lemma {:induction false} AllSomeSpec<T>(xs: seq<Option<T>>)
    ensures AllSome(xs).Some? <==> forall k :: 0 <= k < |xs| ==> xs[k].Some?
    ensures AllSome(xs).Some? ==>
              |AllSome(xs).value| == |xs| &&
              forall k :: 0 <= k < |xs| ==> AllSome(xs).value[k] == xs[k].value
    decreases |xs|
  {
    if xs != [] {
      AllSomeSpec(xs[1..]);
      assert forall k :: 1 <= k < |xs| ==> xs[1..][k - 1] == xs[k];
    }
  }

  /** land_features exists iff every drawn feature keeps a part; then it has
      one feature per drawn feature, in order, each the collapse of that
      feature's survivors. */
  lemma LandFeaturesSpec(fs: seq<Feature>, e: Inclusion, crossValSeed: int, rand: RandomColumn)
    ensures LandFeatures(fs, e, crossValSeed, rand).Some? <==>
              forall k :: 0 <= k < |fs| ==> SelectFeature(fs[k], e, crossValSeed, rand).Some?
    ensures LandFeatures(fs, e, crossValSeed, rand).Some? ==>
              var out := LandFeatures(fs, e, crossValSeed, rand).value;
              |out| == |fs| &&
              forall k :: 0 <= k < |fs| ==> out[k] == SelectFeature(fs[k], e, crossValSeed, rand).value
  {
    var xs := seq(|fs|, k requires 0 <= k < |fs| => SelectFeature(fs[k], e, crossValSeed, rand));
    AllSomeSpec(xs);
    assert LandFeatures(fs, e, crossValSeed, rand) == AllSome(xs);
    forall k | 0 <= k < |fs|
      ensures xs[k] == SelectFeature(fs[k], e, crossValSeed, rand)
    {
    }
  }

  /** Only the layers whose object is a Feature take part, in layer order. */
  lemma {:induction false} TrainingObjectsSpec(layers: seq<Layer>)
    ensures forall g :: g in TrainingObjects(layers) <==> exists l :: l in layers && l.obj == EeFeature(g)
    decreases |layers|
  {
    if layers != [] {
      TrainingObjectsSpec(layers[1..]);
      assert forall l :: l in layers <==> l == layers[0] || l in layers[1..];
    }
  }

  /** A larger validation percentage keeps back more: every part kept for
      training at percentage p2 is kept for training at any p1 <= p2. */
  lemma TrainingShrinks(ps: seq<Part>, p1: int, p2: int)
    requires p1 <= p2
    ensures forall q :: q in Filter(ps, TrainingInclusion(p2)) ==> q in Filter(ps, TrainingInclusion(p1))
  {
  }
}
