/** The value-level logic of the depth-bake custom pass: the height range read from the
    template material, the texture scale/offset given to each snow renderer, the size of
    the baked textures, the blur-kernel gradient bound and the blur schedule of the
    edge-falloff build, and the feature flags derived from the compute shader and the
    velocity setting captured at Setup and from the swept-area setting, which the pass
    reads live every frame. */
module SnowDepthBake {

  import opened Common
  import opened Engine
  import opened SnowShaderId
  import MU = SnowMaterialUtil

  // ---------------------------------------------------------------------------------
  // Height ranges
  // ---------------------------------------------------------------------------------

  /** The six per-layer properties that describe a layer's height range. */
  datatype HeightRangeIds = HeightRangeIds(
    parameterization: PropertyKey, center: PropertyKey, amplitude: PropertyKey,
    min: PropertyKey, max: PropertyKey, offset: PropertyKey)

  function LayerHeightRangeIds(layer: nat): HeightRangeIds
  {
    HeightRangeIds(LayerKey(HeightMapParametrization, layer), LayerKey(HeightCenter, layer),
                   LayerKey(HeightAmplitude, layer), LayerKey(HeightMin, layer),
                   LayerKey(HeightMax, layer), LayerKey(HeightOffset, layer))
  }

  /** The height, in metres, that a height-map sample `h` in [0, 1] stands for under the
      amplitude parametrisation: centred on `center`, scaled by `amplitude`, shifted by
      `offset`, all in centimetres. */
  function ParameterizedHeight(h: real, center: real, amplitude: real, offset: real): real
  {
    ((h - center) * amplitude + offset) * 0.01
  }

  /** The range in centimetres from centre and amplitude; `None` when a getter throws. */
  function ParameterizedRangeCm(m: Material, ids: HeightRangeIds): Option<Vec2>
  {
    match GetFloat(m, ids.center)
    case None => None
    case Some(c) =>
      match GetFloat(m, ids.amplitude)
      case None => None
      case Some(a) => Some(Vec2((0.0 - c) * a, (1.0 - c) * a))
  }

  /** The range in centimetres from the explicit minimum and maximum. */
  function ExplicitRangeCm(m: Material, ids: HeightRangeIds): Option<Vec2>
  {
    match GetFloat(m, ids.min)
    case None => None
    case Some(lo) =>
      match GetFloat(m, ids.max)
      case None => None
      case Some(hi) => Some(Vec2(lo, hi))
  }

  /** GetHeightRange over six property ids: `None` when one of the getters it calls
      throws. A positive parametrisation reads centre and amplitude, otherwise the
      explicit minimum and maximum are read; the offset is read last in both cases. */
  function HeightRangeFromIds(m: Material, ids: HeightRangeIds): (r: Option<Vec2>)
    ensures r.None? <==>
              || ids.parameterization in m.failing
              || (StoredFloat(m, ids.parameterization) > 0.0 && (ids.center in m.failing || ids.amplitude in m.failing))
              || (StoredFloat(m, ids.parameterization) <= 0.0 && (ids.min in m.failing || ids.max in m.failing))
              || ids.offset in m.failing
  {
    match GetFloat(m, ids.parameterization)
    case None => None
    case Some(parameterization) =>
      var rangeCm := if parameterization > 0.0 then ParameterizedRangeCm(m, ids) else ExplicitRangeCm(m, ids);
      match rangeCm
      case None => None
      case Some(rc) =>
        match GetFloat(m, ids.offset)
        case None => None
        case Some(o) => Some(rc.Plus(One2.Scale(o)).Scale(0.01))
  }

  /** A parametrised layer's range runs from the height of sample 0 to the height of
      sample 1, so its width is the amplitude in metres. */
  lemma ParameterizedRange(m: Material, ids: HeightRangeIds)
    requires ids.parameterization !in m.failing && StoredFloat(m, ids.parameterization) > 0.0
    requires ids.center !in m.failing && ids.amplitude !in m.failing && ids.offset !in m.failing
    ensures var c, a, o := StoredFloat(m, ids.center), StoredFloat(m, ids.amplitude), StoredFloat(m, ids.offset);
            var r := HeightRangeFromIds(m, ids);
            && r == Some(Vec2(ParameterizedHeight(0.0, c, a, o), ParameterizedHeight(1.0, c, a, o)))
            && r.value.y - r.value.x == a * 0.01
  {
    var c, a, o := StoredFloat(m, ids.center), StoredFloat(m, ids.amplitude), StoredFloat(m, ids.offset);
    assert GetFloat(m, ids.parameterization) == Some(StoredFloat(m, ids.parameterization));
    assert GetFloat(m, ids.center) == Some(c) && GetFloat(m, ids.amplitude) == Some(a);
    assert ParameterizedRangeCm(m, ids).Some?;
    assert ParameterizedRangeCm(m, ids).value.x == (0.0 - c) * a;
    assert ParameterizedRangeCm(m, ids).value.y == (1.0 - c) * a;
    assert ParameterizedRangeCm(m, ids) == Some(Vec2((0.0 - c) * a, (1.0 - c) * a));
    assert GetFloat(m, ids.offset) == Some(o);
    assert HeightRangeFromIds(m, ids) == Some(Vec2(((0.0 - c) * a + o) * 0.01, ((1.0 - c) * a + o) * 0.01));
    WidthOfParameterizedRange(c, a, o);
    var r := HeightRangeFromIds(m, ids);
    assert ParameterizedHeight(0.0, c, a, o) == ((0.0 - c) * a + o) * 0.01;
    assert ParameterizedHeight(1.0, c, a, o) == ((1.0 - c) * a + o) * 0.01;
    assert r == Some(Vec2(ParameterizedHeight(0.0, c, a, o), ParameterizedHeight(1.0, c, a, o)));
    assert r.value.y - r.value.x == a * 0.01;
  }

  lemma WidthOfParameterizedRange(c: real, a: real, o: real)
    ensures ((1.0 - c) * a + o) * 0.01 - ((0.0 - c) * a + o) * 0.01 == a * 0.01
  {
    assert (1.0 - c) * a - (0.0 - c) * a == a;
  }

  /** An explicit layer's range is its minimum and maximum, offset and converted from
      centimetres to metres. */
  lemma ExplicitRange(m: Material, ids: HeightRangeIds)
    requires ids.parameterization !in m.failing && StoredFloat(m, ids.parameterization) <= 0.0
    requires ids.min !in m.failing && ids.max !in m.failing && ids.offset !in m.failing
    ensures var lo, hi, o := StoredFloat(m, ids.min), StoredFloat(m, ids.max), StoredFloat(m, ids.offset);
            HeightRangeFromIds(m, ids) == Some(Vec2((lo + o) * 0.01, (hi + o) * 0.01))
  {
    var lo, hi, o := StoredFloat(m, ids.min), StoredFloat(m, ids.max), StoredFloat(m, ids.offset);
    assert ExplicitRangeCm(m, ids) == Some(Vec2(lo, hi));
    assert HeightRangeFromIds(m, ids) == Some(Vec2(lo, hi).Plus(One2.Scale(o)).Scale(0.01));
    OffsetInMetres(lo, hi, o);
  }

  lemma OffsetInMetres(lo: real, hi: real, o: real)
    ensures Vec2(lo, hi).Plus(One2.Scale(o)).Scale(0.01) == Vec2((lo + o) * 0.01, (hi + o) * 0.01)
  {
  }

  /** An explicit range keeps the order of its minimum and maximum. */
  lemma ExplicitRangeKeepsOrder(m: Material, ids: HeightRangeIds)
    requires ids.parameterization !in m.failing && StoredFloat(m, ids.parameterization) <= 0.0
    requires ids.min !in m.failing && ids.max !in m.failing && ids.offset !in m.failing
    requires StoredFloat(m, ids.min) <= StoredFloat(m, ids.max)
    ensures var r := HeightRangeFromIds(m, ids); r.Some? && r.value.x <= r.value.y
  {
    ExplicitRange(m, ids);
  }

  /** GetExpandedRange: the smallest range that contains both ranges. */
  function ExpandedRange(a: Vec2, b: Vec2): (r: Vec2)
    ensures r.x <= a.x && r.x <= b.x && (r.x == a.x || r.x == b.x)
    ensures r.y >= a.y && r.y >= b.y && (r.y == a.y || r.y == b.y)
  {
    Vec2(Min(a.x, b.x), Max(a.y, b.y))
  }

  /** Range `outer` reaches at least as far as `inner` in both directions. */
  predicate Covers(outer: Vec2, inner: Vec2)
  {
    outer.x <= inner.x && inner.y <= outer.y
  }

  /** Expanding is order-independent. */
  lemma ExpandedRangeCommutes(a: Vec2, b: Vec2)
    ensures ExpandedRange(a, b) == ExpandedRange(b, a)
  {
  }

  /** GetHeightRange of one layer: the range of layers 0 to 3, or the zero range when
      the layer index is outside 0..3 or a getter throws. */
  function HeightRangeOfLayer(m: Material, layerIndex: int): (r: Vec2)
    ensures !(0 <= layerIndex <= 3) ==> r == Zero2
    ensures 0 <= layerIndex <= 3 ==>
              r == (match HeightRangeFromIds(m, LayerHeightRangeIds(layerIndex))
                    case Some(v) => v
                    case None => Zero2)
  {
    var range :=
      if layerIndex == 0 then HeightRangeFromIds(m, LayerHeightRangeIds(0))
      else if layerIndex == 1 then HeightRangeFromIds(m, LayerHeightRangeIds(1))
      else if layerIndex == 2 then HeightRangeFromIds(m, LayerHeightRangeIds(2))
      else if layerIndex == 3 then HeightRangeFromIds(m, LayerHeightRangeIds(3))
      else Some(Zero2);
    match range
    case Some(v) => v
    case None => Zero2
  }

  /** The range of a layer is read from that layer's own properties only: two
      materials that agree on which of layer `l`'s keys throw and on the values stored
      under them give layer `l` the same range, whatever their other layers hold. */
  lemma HeightRangeReadsOwnLayer(m: Material, u: Material, l: nat)
    requires forall p: LayerProperty :: (LayerKey(p, l) in m.failing <==> LayerKey(p, l) in u.failing)
    requires forall p: LayerProperty :: StoredFloat(m, LayerKey(p, l)) == StoredFloat(u, LayerKey(p, l))
    ensures HeightRangeOfLayer(m, l) == HeightRangeOfLayer(u, l)
  {
    if l <= 3 {
      var ids := LayerHeightRangeIds(l);
      assert forall p: LayerProperty :: GetFloat(m, LayerKey(p, l)) == GetFloat(u, LayerKey(p, l));
      HeightRangeFromAgreeingIds(m, u, ids);
    }
  }

  /** Materials whose getters agree on the six ids give the same range. */
  lemma HeightRangeFromAgreeingIds(m: Material, u: Material, ids: HeightRangeIds)
    requires GetFloat(m, ids.parameterization) == GetFloat(u, ids.parameterization)
    requires GetFloat(m, ids.center) == GetFloat(u, ids.center)
    requires GetFloat(m, ids.amplitude) == GetFloat(u, ids.amplitude)
    requires GetFloat(m, ids.min) == GetFloat(u, ids.min)
    requires GetFloat(m, ids.max) == GetFloat(u, ids.max)
    requires GetFloat(m, ids.offset) == GetFloat(u, ids.offset)
    ensures HeightRangeFromIds(m, ids) == HeightRangeFromIds(u, ids)
  {
    ParameterizedRangeAgrees(m, u, ids);
    assert ExplicitRangeCm(m, ids) == ExplicitRangeCm(u, ids);
    var pm, o := GetFloat(m, ids.parameterization), GetFloat(m, ids.offset);
    if pm.Some? && o.Some? {
      var rangeCm := if pm.value > 0.0 then ParameterizedRangeCm(m, ids) else ExplicitRangeCm(m, ids);
      if rangeCm.Some? {
        var rm, ru := HeightRangeFromIds(m, ids), HeightRangeFromIds(u, ids);
        assert rm == Some(rangeCm.value.Plus(One2.Scale(o.value)).Scale(0.01));
        assert ru == Some(rangeCm.value.Plus(One2.Scale(o.value)).Scale(0.01));
      }
    }
  }

  lemma ParameterizedRangeAgrees(m: Material, u: Material, ids: HeightRangeIds)
    requires GetFloat(m, ids.center) == GetFloat(u, ids.center)
    requires GetFloat(m, ids.amplitude) == GetFloat(u, ids.amplitude)
    ensures ParameterizedRangeCm(m, ids) == ParameterizedRangeCm(u, ids)
  {
    var c, a := GetFloat(m, ids.center), GetFloat(m, ids.amplitude);
    if c.Some? && a.Some? {
      var p, q := ParameterizedRangeCm(m, ids), ParameterizedRangeCm(u, ids);
      assert p.Some? && q.Some?;
      assert p.value.x == (0.0 - c.value) * a.value == q.value.x;
      assert p.value.y == (1.0 - c.value) * a.value == q.value.y;
    }
  }

  /** The ranges of layers 0 to 3, in order. */
  function LayerRanges(m: Material): (r: seq<Vec2>)
    ensures |r| == 4 && forall i :: 0 <= i < 4 ==> r[i] == HeightRangeOfLayer(m, i)
  {
    seq(4, i requires 0 <= i < 4 => HeightRangeOfLayer(m, i))
  }

  /** The range after the first `k` of the layer steps of the layer-count overload:
      step `i` expands by `ranges[i]` when the layer count exceeds `i`. */
  function FoldedRange(ranges: seq<Vec2>, layerCount: int, k: nat): Vec2
    requires k <= |ranges|
  {
    if k == 0 then Zero2
    else if layerCount > k - 1 then ExpandedRange(FoldedRange(ranges, layerCount, k - 1), ranges[k - 1])
    else FoldedRange(ranges, layerCount, k - 1)
  }

  /** GetHeightRange with the layer count: the layer count is the material's _LayerCount
      cast to int, and the range covers height 0 and every counted layer. When reading
      the layer count throws, the count stays 0 and the range is zero. */
  function TemplateHeightRange(m: Material): (r: (Vec2, int))
  {
    match GetFloat(m, GlobalKey(LayerCount))
    case None => (Zero2, 0)
    case Some(f) => (FoldedRange(LayerRanges(m), TruncToInt(f), 4), TruncToInt(f))
  }

  /** After `k` steps the folded range covers 0, covers each counted range, and each of
      its ends is 0 or the matching end of a counted range. */
  lemma {:induction false} FoldedRangeCovers(ranges: seq<Vec2>, layerCount: int, k: nat)
    requires k <= |ranges|
    ensures var r := FoldedRange(ranges, layerCount, k);
            && Covers(r, Zero2)
            && (forall i :: 0 <= i < k && i < layerCount ==> Covers(r, ranges[i]))
            && (r.x == 0.0 || exists i :: 0 <= i < k && i < layerCount && r.x == ranges[i].x)
            && (r.y == 0.0 || exists i :: 0 <= i < k && i < layerCount && r.y == ranges[i].y)
  {
    if k > 0 {
      FoldedRangeCovers(ranges, layerCount, k - 1);
      var prev := FoldedRange(ranges, layerCount, k - 1);
      var r := FoldedRange(ranges, layerCount, k);
      if layerCount > k - 1 {
        var top := ranges[k - 1];
        assert r == ExpandedRange(prev, top);
        if r.x != 0.0 && r.x != top.x {
          assert r.x == prev.x;
          var i :| 0 <= i < k - 1 && i < layerCount && prev.x == ranges[i].x;
          assert 0 <= i < k && i < layerCount && r.x == ranges[i].x;
        }
        if r.y != 0.0 && r.y != top.y {
          assert r.y == prev.y;
          var i :| 0 <= i < k - 1 && i < layerCount && prev.y == ranges[i].y;
          assert 0 <= i < k && i < layerCount && r.y == ranges[i].y;
        }
      } else {
        assert r == prev;
      }
    }
  }

  /** The template range contains height 0 and the range of every layer below
      min(layer count, 4), and it is the tightest such range. */
  lemma TemplateHeightRangeCovers(m: Material)
    ensures var (r, n) := TemplateHeightRange(m);
            && Covers(r, Zero2)
            && (forall i :: 0 <= i < 4 && i < n ==> Covers(r, HeightRangeOfLayer(m, i)))
            && (r.x == 0.0 || exists i :: 0 <= i < 4 && i < n && r.x == HeightRangeOfLayer(m, i).x)
            && (r.y == 0.0 || exists i :: 0 <= i < 4 && i < n && r.y == HeightRangeOfLayer(m, i).y)
  {
    var n := TemplateHeightRange(m).1;
    if GetFloat(m, GlobalKey(LayerCount)).Some? {
      FoldedRangeCovers(LayerRanges(m), n, 4);
    }
  }

  /** The layer count is the truncated stored _LayerCount, or 0 when reading it throws,
      and in that case the range is zero. */
  lemma TemplateLayerCount(m: Material)
    ensures GlobalKey(LayerCount) in m.failing ==>
              TemplateHeightRange(m) == (Zero2, 0)
    ensures GlobalKey(LayerCount) !in m.failing ==>
              TemplateHeightRange(m).1 == TruncToInt(StoredFloat(m, GlobalKey(LayerCount)))
    ensures TemplateHeightRange(m).1 <= 0 ==> TemplateHeightRange(m).0 == Zero2
  {
    if GlobalKey(LayerCount) !in m.failing {
      var n := TruncToInt(StoredFloat(m, GlobalKey(LayerCount)));
      if n <= 0 {
        NoLayersFoldsToZero(LayerRanges(m), n, 4);
      }
    }
  }

  lemma {:induction false} NoLayersFoldsToZero(ranges: seq<Vec2>, layerCount: int, k: nat)
    requires k <= |ranges| && layerCount <= 0
    ensures FoldedRange(ranges, layerCount, k) == Zero2
  {
    if k > 0 {
      NoLayersFoldsToZero(ranges, layerCount, k - 1);
    }
  }

  // ---------------------------------------------------------------------------------
  // Top-layer lookups (ShaderID.HeightMap / NormalMap / NormalScale.FromLayerCount)
  // ---------------------------------------------------------------------------------

  /** The layer FromLayerCount picks: the top layer of a 2-, 3- or 4-layer material,
      and layer 0 for any other count. */
  function TopLayer(layerCount: int): (l: nat)
    ensures 1 <= layerCount <= 4 ==> l == layerCount - 1
    ensures !(1 <= layerCount <= 4) ==> l == 0
    ensures l <= 3
  {
    match layerCount
    case 4 => 3
    case 3 => 2
    case 2 => 1
    case _ => 0
  }

  function HeightMapFromLayerCount(layerCount: int): (k: PropertyKey)
    ensures k.TextureKey? && k.texture == LayerTexture(HeightMap, TopLayer(layerCount))
  {
    TextureKey(LayerTexture(HeightMap, TopLayer(layerCount)))
  }

  function NormalMapFromLayerCount(layerCount: int): (k: PropertyKey)
    ensures k.TextureKey? && k.texture == LayerTexture(NormalMap, TopLayer(layerCount))
  {
    TextureKey(LayerTexture(NormalMap, TopLayer(layerCount)))
  }

  function NormalScaleFromLayerCount(layerCount: int): (k: PropertyKey)
    ensures k == LayerKey(NormalScale, TopLayer(layerCount))
  {
    LayerKey(NormalScale, TopLayer(layerCount))
  }

  /** The three lookups name properties of the top layer. For the 2-, 3- and 4-layer
      templates, a template that passes layer validation declares all three and reads
      them without throwing, so the top-layer maps Setup hands to the mask and detail
      materials are ones validation checked. */
  lemma TopLayerLookups(t: Material, layerCount: int)
    ensures LayerOf(HeightMapFromLayerCount(layerCount)) == Some(TopLayer(layerCount))
    ensures LayerOf(NormalMapFromLayerCount(layerCount)) == Some(TopLayer(layerCount))
    ensures LayerOf(NormalScaleFromLayerCount(layerCount)) == Some(TopLayer(layerCount))
    ensures 2 <= layerCount <= 4 && MU.TemplateValid(t, layerCount) ==>
              && HasProperty(t, HeightMapFromLayerCount(layerCount)) && HeightMapFromLayerCount(layerCount) !in t.failing
              && HasProperty(t, NormalMapFromLayerCount(layerCount)) && NormalMapFromLayerCount(layerCount) !in t.failing
              && HasProperty(t, NormalScaleFromLayerCount(layerCount)) && NormalScaleFromLayerCount(layerCount) !in t.failing
  {
    if 2 <= layerCount <= 4 && MU.TemplateValid(t, layerCount) {
      var l := TopLayer(layerCount);
      assert MU.LayerValid(t, l);
      var fields := MU.LayerCheckFields;
      assert fields[9] == MU.LayerCopyFields()[9] == (MU.TextureAccess, MU.Tex(NormalMap));
      assert fields[11] == MU.LayerCopyFields()[11] == (MU.FloatAccess, MU.Prop(NormalScale));
      assert fields[14] == MU.LayerCopyFields()[14] == (MU.TextureAccess, MU.Tex(HeightMap));
      assert MU.KeyAt(fields[9].1, l) == NormalMapFromLayerCount(layerCount);
      assert MU.KeyAt(fields[11].1, l) == NormalScaleFromLayerCount(layerCount);
      assert MU.KeyAt(fields[14].1, l) == HeightMapFromLayerCount(layerCount);
    }
  }

  // ---------------------------------------------------------------------------------
  // Per-renderer texture mapping
  // ---------------------------------------------------------------------------------

  /** An axis-aligned box given by its corners. */
  datatype Bounds = Bounds(min: Vec3, max: Vec3)
  {
    /** The horizontal (x, z) corners and extent. */
    function HorizontalMin(): Vec2 { Vec2(min.x, min.z) }
    function HorizontalMax(): Vec2 { Vec2(max.x, max.z) }
    function HorizontalSize(): Vec2 { Vec2(max.x - min.x, max.z - min.z) }
  }

  /** Bounds whose horizontal extent is not degenerate on either axis. */
  predicate HorizontallyNonDegenerate(b: Bounds)
  {
    b.HorizontalSize().x != 0.0 && b.HorizontalSize().y != 0.0
  }

  /** Where coordinate `p` falls along [lo, lo + size], as a fraction. */
  function Fraction(p: real, lo: real, size: real): real
    requires size != 0.0
  {
    (p - lo) / size
  }

  /** GetLayerMaskOffsetAndScaling_AxisAligned: the offset and scaling, on each
      horizontal axis, that map a renderer's [0, 1] uv range onto its part of the
      aggregate bounds `full`. The result is (offset, scaling). The division by the
      aggregate size is unguarded: when `full` is flat along x or z the source's
      floats are infinite or NaN, and the result here is `None`. */
  function LayerMaskOffsetAndScaling(full: Bounds, bounds: Bounds): (r: Option<(Vec2, Vec2)>)
    ensures r.Some? <==> HorizontallyNonDegenerate(full)
  {
    var fullMin := full.HorizontalMin();
    var fullSize := full.HorizontalMax().Minus(fullMin);
    if fullSize.x == 0.0 || fullSize.y == 0.0 then None
    else
      var minFrac := bounds.HorizontalMin().Minus(fullMin).Over(fullSize);
      var maxFrac := bounds.HorizontalMax().Minus(fullMin).Over(fullSize);
      Some((minFrac, maxFrac.Minus(minFrac)))
  }

  /** The offset is where the renderer's low corner falls across the aggregate bounds,
      and offset plus scaling is where its high corner falls. More generally, a uv `u`
      of the renderer lands at the fraction of the world point `min + u * size`. */
  lemma LayerMaskMapsRendererUv(full: Bounds, bounds: Bounds, u: Vec2)
    requires HorizontallyNonDegenerate(full)
    ensures LayerMaskOffsetAndScaling(full, bounds).Some?
    ensures var (offset, scaling) := LayerMaskOffsetAndScaling(full, bounds).value;
            var fullMin, fullSize := full.HorizontalMin(), full.HorizontalSize();
            && offset.x == Fraction(bounds.min.x, fullMin.x, fullSize.x)
            && offset.y == Fraction(bounds.min.z, fullMin.y, fullSize.y)
            && offset.x + scaling.x == Fraction(bounds.max.x, fullMin.x, fullSize.x)
            && offset.y + scaling.y == Fraction(bounds.max.z, fullMin.y, fullSize.y)
            && offset.x + u.x * scaling.x
               == Fraction(bounds.min.x + u.x * (bounds.max.x - bounds.min.x), fullMin.x, fullSize.x)
            && offset.y + u.y * scaling.y
               == Fraction(bounds.min.z + u.y * (bounds.max.z - bounds.min.z), fullMin.y, fullSize.y)
  {
    var fullMin, fullSize := full.HorizontalMin(), full.HorizontalSize();
    AffineFraction(bounds.min.x, bounds.max.x, fullMin.x, fullSize.x, u.x);
    AffineFraction(bounds.min.z, bounds.max.z, fullMin.y, fullSize.y, u.y);
  }

  lemma AffineFraction(a: real, b: real, lo: real, size: real, u: real)
    requires size != 0.0
    ensures Fraction(a, lo, size) + u * (Fraction(b, lo, size) - Fraction(a, lo, size))
            == Fraction(a + u * (b - a), lo, size)
  {
    var fa, fb := (a - lo) / size, (b - lo) / size;
    assert fa * size == a - lo;
    assert fb * size == b - lo;
    assert (fa + u * (fb - fa)) * size == a + u * (b - a) - lo;
  }

  /** A renderer that spans the whole aggregate bounds keeps its uvs: scaling (1, 1),
      offset (0, 0). */
  lemma LayerMaskOfFullBounds(full: Bounds)
    requires HorizontallyNonDegenerate(full)
    ensures LayerMaskOffsetAndScaling(full, full) == Some((Zero2, One2))
  {
    var s := full.HorizontalSize();
    assert s.x / s.x == 1.0 && s.y / s.y == 1.0;
  }

  /** A renderer inside the aggregate bounds maps into the unit square. */
  lemma LayerMaskInsideUnitSquare(full: Bounds, bounds: Bounds)
    requires full.min.x < full.max.x && full.min.z < full.max.z
    requires full.min.x <= bounds.min.x <= bounds.max.x <= full.max.x
    requires full.min.z <= bounds.min.z <= bounds.max.z <= full.max.z
    ensures LayerMaskOffsetAndScaling(full, bounds).Some?
    ensures var (offset, scaling) := LayerMaskOffsetAndScaling(full, bounds).value;
            && 0.0 <= offset.x && 0.0 <= scaling.x && offset.x + scaling.x <= 1.0
            && 0.0 <= offset.y && 0.0 <= scaling.y && offset.y + scaling.y <= 1.0
  {
    var fullMin, fullSize := full.HorizontalMin(), full.HorizontalSize();
    FractionInUnitInterval(bounds.min.x, bounds.max.x, fullMin.x, fullSize.x);
    FractionInUnitInterval(bounds.min.z, bounds.max.z, fullMin.y, fullSize.y);
    LayerMaskMapsRendererUv(full, bounds, Zero2);
  }

  lemma FractionInUnitInterval(a: real, b: real, lo: real, size: real)
    requires size > 0.0 && lo <= a <= b <= lo + size
    ensures 0.0 <= Fraction(a, lo, size) <= Fraction(b, lo, size) <= 1.0
  {
    DivMonotone(0.0, a - lo, size);
    DivMonotone(a - lo, b - lo, size);
    DivMonotone(b - lo, size, size);
    SelfDivision(size);
  }

  lemma DivMonotone(x: real, y: real, s: real)
    requires s > 0.0 && x <= y
    ensures x / s <= y / s
  {
  }

  lemma MulMonotone(x: real, y: real, e: real)
    requires e >= 0.0 && x <= y
    ensures x * e <= y * e
  {
  }

  lemma SelfDivision(s: real)
    requires s != 0.0
    ensures s / s == 1.0
  {
  }

  lemma CancelFactor(m: real, e: real)
    requires m != 0.0
    ensures m * e / m == e
  {
  }

  /** The template scale the mapping divides by, as written: the configured one, or
      (1, 1) in place of the zero scale. */
  function MaterialScale(templateScale: Vec2): (s: Vec2)
    ensures templateScale == Zero2 ==> s == One2
    ensures templateScale != Zero2 ==> s == templateScale
  {
    if templateScale == Zero2 then One2 else templateScale
  }

  /** A template scale the mapping can divide by on both axes. */
  predicate MaterialScaleUsable(templateScale: Vec2)
  {
    MaterialScale(templateScale).x != 0.0 && MaterialScale(templateScale).y != 0.0
  }

  /** The scale is never the zero vector, but it can still be zero on one axis: it can
      be divided by exactly when the configured scale is zero or has no zero component. */
  lemma MaterialScaleFacts(templateScale: Vec2)
    ensures MaterialScale(templateScale) != Zero2
    ensures MaterialScaleUsable(templateScale) <==>
              templateScale == Zero2 || (templateScale.x != 0.0 && templateScale.y != 0.0)
  {
  }

  /** As written, a scale of (0, 2) passes the zero-vector test unchanged, and the
      mapping then divides the x axis by zero. */
  lemma OneZeroAxisScaleCounterexample()
    ensures MaterialScale(Vec2(0.0, 2.0)) == Vec2(0.0, 2.0)
    ensures !MaterialScaleUsable(Vec2(0.0, 2.0))
  {
  }

  /** The scale the mapping divides by, with the guard applied per axis: each zero
      component becomes 1. It agrees with the source wherever the source's scale can be
      divided by, and never divides by zero. */
  function DivisorScale(templateScale: Vec2): (s: Vec2)
    ensures s.x != 0.0 && s.y != 0.0
    ensures MaterialScaleUsable(templateScale) ==> s == MaterialScale(templateScale)
    ensures templateScale.x != 0.0 ==> s.x == templateScale.x
    ensures templateScale.y != 0.0 ==> s.y == templateScale.y
  {
    Vec2(if templateScale.x == 0.0 then 1.0 else templateScale.x,
         if templateScale.y == 0.0 then 1.0 else templateScale.y)
  }

  /** GetMaterialScalingOffset_AxisAligned: the (scaling, offset) of a texture on a
      renderer, given the template texture's own scaling and offset over a template
      object of size `templateScale`, with distances measured from the aggregate
      minimum corner or from the world origin. */
  function MaterialScalingOffset(bounds: Bounds, fullMin: Vec2, templateScale: Vec2, initialScaling: Vec2,
                                 initialOffset: Vec2, offsetFromRenderersBounds: bool): (r: (Vec2, Vec2))
  {
    var offsetPoint := if offsetFromRenderersBounds then fullMin else Zero2;
    ScalingOffsetOver(bounds, offsetPoint, DivisorScale(templateScale), initialScaling, initialOffset)
  }

  /** The mapping for a given offset point and a scale that can be divided by. */
  function ScalingOffsetOver(bounds: Bounds, offsetPoint: Vec2, materialScale: Vec2, initialScaling: Vec2,
                             initialOffset: Vec2): (r: (Vec2, Vec2))
    requires materialScale.x != 0.0 && materialScale.y != 0.0
  {
    var minOffset := bounds.HorizontalMin().Minus(offsetPoint);
    (bounds.HorizontalSize().Times(initialScaling).Over(materialScale),
     initialOffset.Plus(minOffset.Times(initialScaling).Over(materialScale)))
  }

  /** The texture coordinate the template would have at distance `d` from the offset
      point along one axis: it starts at `k` and advances `j` per template size `s`. */
  function TemplateCoordinate(k: real, j: real, s: real, d: real): real
    requires s != 0.0
  {
    k + d * j / s
  }

  /** The renderer's texture starts where the template's coordinate is at the
      renderer's low corner and ends where it is at the high corner, measured from the
      chosen offset point. */
  lemma MaterialMappingMatchesTemplate(bounds: Bounds, fullMin: Vec2, templateScale: Vec2, initialScaling: Vec2,
                                       initialOffset: Vec2, offsetFromRenderersBounds: bool)
    ensures var (scaling, offset) := MaterialScalingOffset(bounds, fullMin, templateScale, initialScaling,
                                                          initialOffset, offsetFromRenderersBounds);
            var p := if offsetFromRenderersBounds then fullMin else Zero2;
            var s := DivisorScale(templateScale);
            && offset.x == TemplateCoordinate(initialOffset.x, initialScaling.x, s.x, bounds.min.x - p.x)
            && offset.y == TemplateCoordinate(initialOffset.y, initialScaling.y, s.y, bounds.min.z - p.y)
            && offset.x + scaling.x == TemplateCoordinate(initialOffset.x, initialScaling.x, s.x, bounds.max.x - p.x)
            && offset.y + scaling.y == TemplateCoordinate(initialOffset.y, initialScaling.y, s.y, bounds.max.z - p.y)
  {
    var p := if offsetFromRenderersBounds then fullMin else Zero2;
    var s := DivisorScale(templateScale);
    MappingX(bounds, p, s, initialScaling, initialOffset);
    MappingY(bounds, p, s, initialScaling, initialOffset);
  }

  /** The material mapping along x, and along y (the bounds' z axis). */
  lemma MappingX(bounds: Bounds, p: Vec2, s: Vec2, initialScaling: Vec2, initialOffset: Vec2)
    requires s.x != 0.0 && s.y != 0.0
    ensures var r := ScalingOffsetOver(bounds, p, s, initialScaling, initialOffset);
            && r.1.x == TemplateCoordinate(initialOffset.x, initialScaling.x, s.x, bounds.min.x - p.x)
            && r.1.x + r.0.x == TemplateCoordinate(initialOffset.x, initialScaling.x, s.x, bounds.max.x - p.x)
  {
    var r := ScalingOffsetOver(bounds, p, s, initialScaling, initialOffset);
    assert r.0.x == (bounds.max.x - bounds.min.x) * initialScaling.x / s.x;
    assert r.1.x == initialOffset.x + (bounds.min.x - p.x) * initialScaling.x / s.x;
    AxisMapping(bounds.min.x, bounds.max.x, p.x, initialOffset.x, initialScaling.x, s.x, r.0.x, r.1.x);
  }

  lemma MappingY(bounds: Bounds, p: Vec2, s: Vec2, initialScaling: Vec2, initialOffset: Vec2)
    requires s.x != 0.0 && s.y != 0.0
    ensures var r := ScalingOffsetOver(bounds, p, s, initialScaling, initialOffset);
            && r.1.y == TemplateCoordinate(initialOffset.y, initialScaling.y, s.y, bounds.min.z - p.y)
            && r.1.y + r.0.y == TemplateCoordinate(initialOffset.y, initialScaling.y, s.y, bounds.max.z - p.y)
  {
    var r := ScalingOffsetOver(bounds, p, s, initialScaling, initialOffset);
    assert r.0.y == (bounds.max.z - bounds.min.z) * initialScaling.y / s.y;
    assert r.1.y == initialOffset.y + (bounds.min.z - p.y) * initialScaling.y / s.y;
    AxisMapping(bounds.min.z, bounds.max.z, p.y, initialOffset.y, initialScaling.y, s.y, r.0.y, r.1.y);
  }

  /** One axis of the material mapping. */
  lemma AxisMapping(lo: real, hi: real, p: real, k: real, j: real, s: real, scaling: real, offset: real)
    requires s != 0.0
    requires scaling == (hi - lo) * j / s && offset == k + (lo - p) * j / s
    ensures offset == TemplateCoordinate(k, j, s, lo - p)
    ensures offset + scaling == TemplateCoordinate(k, j, s, hi - p)
  {
    TemplateCoordinateStep(k, j, s, lo - p, hi - lo);
  }

  lemma TemplateCoordinateStep(k: real, j: real, s: real, a: real, w: real)
    requires s != 0.0
    ensures k + a * j / s + w * j / s == TemplateCoordinate(k, j, s, a + w)
  {
    assert a * j / s + w * j / s == (a + w) * j / s;
  }

  datatype ScaleOffset = ScaleOffset(scale: Vec2, offset: Vec2)

  /** SetTextureScalingOffsetRelativeToTemplateAndBounds: the scale/offset vector
      written under a texture's _ST id. The template's own scale and offset are used
      when asked for, and reading them throws for a failing texture. */
  function TextureScaleOffsetVector(template: Material, t: TextureName, useTemplateScaleOffset: bool,
                                    bounds: Bounds, full: Bounds, templateScale: Vec2): (r: Option<Vec4>)
    ensures r.None? <==> useTemplateScaleOffset && TextureKey(t) in template.failing
    ensures !useTemplateScaleOffset ==>
              var (scaling, offset) := MaterialScalingOffset(bounds, full.HorizontalMin(), templateScale, One2, Zero2, true);
              r == Some(Vec4(scaling.x, scaling.y, offset.x, offset.y))
  {
    var initial :=
      if useTemplateScaleOffset then
        match (GetTextureScale(template, t), GetTextureOffset(template, t))
        case (Some(s), Some(o)) => Some(ScaleOffset(s, o))
        case _ => None
      else Some(ScaleOffset(One2, Zero2));
    match initial
    case None => None
    case Some(so) =>
      var (scaling, offset) := MaterialScalingOffset(bounds, full.HorizontalMin(), templateScale, so.scale, so.offset, true);
      Some(Vec4(scaling.x, scaling.y, offset.x, offset.y))
  }

  // ---------------------------------------------------------------------------------
  // Texture sizes
  // ---------------------------------------------------------------------------------

  /** The number of texels a side of length `side` gets when the longest side `m`
      gets `edge` texels, before rounding. */
  function ScaledSide(side: real, m: real, edge: int): real
    requires m != 0.0
  {
    side * (edge as real) / m
  }

  /** The baked texture size: the longer horizontal side of the bounds gets
      `textureEdgeSize` texels and the other side keeps the aspect ratio, rounded. */
  function TextureSize(boundsSize: Vec2, textureEdgeSize: int): (r: Vec2Int)
    requires Max(boundsSize.x, boundsSize.y) > 0.0
  {
    var m := Max(boundsSize.x, boundsSize.y);
    Vec2Int(RoundToInt(ScaledSide(boundsSize.x, m, textureEdgeSize)),
            RoundToInt(ScaledSide(boundsSize.y, m, textureEdgeSize)))
  }

  /** The longer side gets exactly the edge size; each side is within half a texel of
      the exact proportional size, and for non-negative sizes lies in [0, edge size]. */
  lemma TextureSizeProperties(boundsSize: Vec2, textureEdgeSize: int)
    requires Max(boundsSize.x, boundsSize.y) > 0.0
    ensures var r, m := TextureSize(boundsSize, textureEdgeSize), Max(boundsSize.x, boundsSize.y);
            && (boundsSize.x >= boundsSize.y ==> r.x == textureEdgeSize)
            && (boundsSize.y >= boundsSize.x ==> r.y == textureEdgeSize)
            && ScaledSide(boundsSize.x, m, textureEdgeSize) - 0.5 <= r.x as real <= ScaledSide(boundsSize.x, m, textureEdgeSize) + 0.5
            && ScaledSide(boundsSize.y, m, textureEdgeSize) - 0.5 <= r.y as real <= ScaledSide(boundsSize.y, m, textureEdgeSize) + 0.5
            && (boundsSize.x >= 0.0 && boundsSize.y >= 0.0 && textureEdgeSize >= 0 ==>
                  0 <= r.x <= textureEdgeSize && 0 <= r.y <= textureEdgeSize)
  {
    var m := Max(boundsSize.x, boundsSize.y);
    ProportionalSide(boundsSize.x, m, textureEdgeSize);
    ProportionalSide(boundsSize.y, m, textureEdgeSize);
  }

  lemma ProportionalSide(side: real, m: real, edge: int)
    requires m > 0.0 && side <= m
    ensures side == m ==> RoundToInt(ScaledSide(side, m, edge)) == edge
    ensures 0.0 <= side && edge >= 0 ==> 0 <= RoundToInt(ScaledSide(side, m, edge)) <= edge
  {
    if side == m {
      LongSideIsEdge(m, edge);
    }
    if 0.0 <= side && edge >= 0 {
      ScaledSideBounds(side, m, edge);
      RoundOfInteger(edge);
      RoundOfInteger(0);
      RoundToIntMonotone(0.0, ScaledSide(side, m, edge));
      RoundToIntMonotone(ScaledSide(side, m, edge), edge as real);
    }
  }

  lemma LongSideIsEdge(m: real, edge: int)
    requires m > 0.0
    ensures RoundToInt(ScaledSide(m, m, edge)) == edge
  {
    var e := edge as real;
    CancelFactor(m, e);
    assert ScaledSide(m, m, edge) == m * e / m == e;
    RoundOfInteger(edge);
  }

  lemma ScaledSideBounds(side: real, m: real, edge: int)
    requires m > 0.0 && 0.0 <= side <= m && edge >= 0
    ensures 0.0 <= ScaledSide(side, m, edge) <= edge as real
  {
    var e := edge as real;
    MulMonotone(0.0, side, e);
    MulMonotone(side, m, e);
    DivMonotone(0.0, side * e, m);
    DivMonotone(side * e, m * e, m);
    CancelFactor(m, e);
  }

  lemma RoundToIntMonotone(a: real, b: real)
    requires a <= b
    ensures RoundToInt(a) <= RoundToInt(b)
  {
  }

  lemma RoundOfInteger(n: int)
    ensures RoundToInt(n as real) == n
  {
    assert (n as real).Floor == n;
  }

  /** GetTextureSizeVector: the size and its reciprocal, as the shaders expect it. */
  function TextureSizeVector(size: Vec2Int): (r: Vec4)
    requires size.x != 0 && size.y != 0
    ensures r.x == size.x as real && r.y == size.y as real
    ensures r.z * r.x == 1.0 && r.w * r.y == 1.0
  {
    Vec4(size.x as real, size.y as real, 1.0 / (size.x as real), 1.0 / (size.y as real))
  }

  /** The factor Mathf.RoundToInt(Mathf.Pow(2, n)) by which a texture is downsampled. */
  function DownsampleFactor(n: nat): (f: int)
    ensures f >= 1 && f == Pow2(n)
  {
    Pow2(n)
  }

  /** The number of temporary downsample targets of the edge-falloff build. */
  function TempTargetCount(downsampleTimes: nat): (n: nat)
    ensures n >= 2 && n == (if downsampleTimes >= 1 then downsampleTimes else 1) + 1
  {
    (if downsampleTimes >= 1 then downsampleTimes else 1) + 1
  }

  /** The downsample factor of temporary target `k`: 2 to the min(k + 1, times). */
  function TempTargetFactor(downsampleTimes: nat, k: nat): int
  {
    DownsampleFactor(MinInt(k + 1, downsampleTimes))
  }

  /** A texture size divided by a factor with C#'s integer division. */
  function Downsampled(size: Vec2Int, factor: int): Vec2Int
    requires factor != 0
  {
    Vec2Int(CsQuot(size.x, factor), CsQuot(size.y, factor))
  }

  /** There are at least two temporary targets, so the two buffers the blur alternates
      between (the last two) exist, and both are downsampled by 2^times, the factor of
      the edge-falloff texture. The factors never decrease from one target to the next
      and none exceeds 2^times. */
  lemma TempTargetFactors(downsampleTimes: nat)
    ensures TempTargetCount(downsampleTimes) >= 2
    ensures TempTargetFactor(downsampleTimes, TempTargetCount(downsampleTimes) - 1) == DownsampleFactor(downsampleTimes)
    ensures TempTargetFactor(downsampleTimes, TempTargetCount(downsampleTimes) - 2) == DownsampleFactor(downsampleTimes)
    ensures forall k :: 0 <= k < TempTargetCount(downsampleTimes) - 1 ==>
              TempTargetFactor(downsampleTimes, k) <= TempTargetFactor(downsampleTimes, k + 1)
    ensures forall k :: 0 <= k < TempTargetCount(downsampleTimes) ==>
              1 <= TempTargetFactor(downsampleTimes, k) <= DownsampleFactor(downsampleTimes)
  {
    forall k | 0 <= k < TempTargetCount(downsampleTimes) - 1
      ensures TempTargetFactor(downsampleTimes, k) <= TempTargetFactor(downsampleTimes, k + 1)
    {
      Pow2Monotone(MinInt(k + 1, downsampleTimes), MinInt(k + 2, downsampleTimes));
    }
    forall k | 0 <= k < TempTargetCount(downsampleTimes)
      ensures 1 <= TempTargetFactor(downsampleTimes, k) <= DownsampleFactor(downsampleTimes)
    {
      Pow2Monotone(MinInt(k + 1, downsampleTimes), downsampleTimes);
    }
  }

  lemma {:induction false} Pow2Monotone(a: nat, b: nat)
    requires a <= b
    ensures Pow2(a) <= Pow2(b)
    decreases b
  {
    if a < b {
      Pow2Monotone(a, b - 1);
    }
  }

  // ---------------------------------------------------------------------------------
  // Gradient bound of the blur kernel
  // ---------------------------------------------------------------------------------

  /** The blur kernel's coefficients by distance from the centre tap. */
  const BlurCoefficients: seq<real> := [0.27343750, 0.21875000, 0.10937500, 0.03125000, 0.00390625]

  function Abs(k: int): nat
  {
    if k < 0 then -k else k
  }

  function Coefficient(k: int): real
    requires -4 <= k <= 4
  {
    BlurCoefficients[Abs(k)]
  }

  /** The weight tap `k` contributes on the high side of a unit step, and on the low
      side two texels away, for a blur of radius `r`. */
  function HighTerm(r: real, k: int): real
    requires -4 <= k <= 4
  {
    Coefficient(k) * Clamp01(1.0 - (k as real) * r)
  }

  function LowTerm(r: real, k: int): real
    requires -4 <= k <= 4
  {
    Coefficient(k) * Clamp01(-((k as real) * r) - 1.0)
  }

  /** The sums of those terms over the taps -4 .. j - 1. */
  function HighSum(r: real, j: int): real
    requires -4 <= j <= 5
    decreases j + 4
  {
    if j == -4 then 0.0 else HighSum(r, j - 1) + HighTerm(r, j - 1)
  }

  function LowSum(r: real, j: int): real
    requires -4 <= j <= 5
    decreases j + 4
  {
    if j == -4 then 0.0 else LowSum(r, j - 1) + LowTerm(r, j - 1)
  }

  /** The largest gradient, in units of texels, that the blur leaves of a unit step
      across one texel. */
  function BlurredGradientMaximum(r: real): real
  {
    (HighSum(r, 5) - LowSum(r, 5)) / 2.0
  }

  /** GetBlurredGradientMaximum: the nine-tap loop over the coefficient table. */
  method GetBlurredGradientMaximum(blurRadiusBase: real) returns (m: real)
    ensures m == BlurredGradientMaximum(blurRadiusBase)
  {
    var positiveValue, negativeValue := 0.0, 0.0;
    var coefficients := BlurCoefficients;
    var offsetIndex := -4;
    while offsetIndex <= 4
      invariant -4 <= offsetIndex <= 5
      invariant positiveValue == HighSum(blurRadiusBase, offsetIndex)
      invariant negativeValue == LowSum(blurRadiusBase, offsetIndex)
    {
      var coefficient := coefficients[Abs(offsetIndex)];
      var offset := (offsetIndex as real) * blurRadiusBase;
      HighTapTerm(coefficient, offset, blurRadiusBase, offsetIndex);
      LowTapTerm(coefficient, offset, blurRadiusBase, offsetIndex);
      positiveValue := positiveValue + coefficient * Clamp01(1.0 - offset);
      negativeValue := negativeValue + coefficient * Clamp01(-offset - 1.0);
      offsetIndex := offsetIndex + 1;
    }
    m := (positiveValue - negativeValue) / 2.0;
  }

  /** The terms one iteration of GetBlurredGradientMaximum adds for tap `k`. */
  lemma HighTapTerm(coefficient: real, offset: real, r: real, k: int)
    requires -4 <= k <= 4 && coefficient == Coefficient(k) && offset == (k as real) * r
    ensures coefficient * Clamp01(1.0 - offset) == HighTerm(r, k)
  {
  }

  lemma LowTapTerm(coefficient: real, offset: real, r: real, k: int)
    requires -4 <= k <= 4 && coefficient == Coefficient(k) && offset == (k as real) * r
    ensures coefficient * Clamp01(-offset - 1.0) == LowTerm(r, k)
  {
  }

  /** Taps `k` and `-k` together contribute between 0 and twice their coefficient. */
  lemma TapPair(r: real, k: int)
    requires 1 <= k <= 4
    ensures 0.0 <= HighTerm(r, k) + HighTerm(r, -k) - LowTerm(r, k) - LowTerm(r, -k) <= 2.0 * Coefficient(k)
  {
    var t := (k as real) * r;
    var c := Coefficient(k);
    PairTerms(r, k, t, c);
    ClampPair(t);
    WeightedPair(c, Clamp01(1.0 - t), Clamp01(1.0 + t), Clamp01(-t - 1.0), Clamp01(t - 1.0));
  }

  /** The four terms of taps `k` and `-k`, with t = k * r and c the shared coefficient. */
  lemma PairTerms(r: real, k: int, t: real, c: real)
    requires 1 <= k <= 4 && t == (k as real) * r && c == Coefficient(k)
    ensures c > 0.0
    ensures HighTerm(r, k) == c * Clamp01(1.0 - t) && HighTerm(r, -k) == c * Clamp01(1.0 + t)
    ensures LowTerm(r, k) == c * Clamp01(-t - 1.0) && LowTerm(r, -k) == c * Clamp01(t - 1.0)
  {
    NegatedOffset(k, r);
    assert Coefficient(-k) == c;
  }

  lemma NegatedOffset(k: int, r: real)
    ensures ((-k) as real) * r == -((k as real) * r)
  {
  }

  /** The clamped high and low sides of a tap pair at offsets t and -t add up to
      between 0 and 2. */
  lemma ClampPair(t: real)
    ensures 0.0 <= Clamp01(1.0 - t) + Clamp01(1.0 + t) - Clamp01(-t - 1.0) - Clamp01(t - 1.0) <= 2.0
  {
  }

  lemma WeightedPair(c: real, h1: real, h2: real, l1: real, l2: real)
    requires c > 0.0 && 0.0 <= h1 + h2 - l1 - l2 <= 2.0
    ensures 0.0 <= c * h1 + c * h2 - c * l1 - c * l2 <= 2.0 * c
  {
    assert c * h1 + c * h2 - c * l1 - c * l2 == c * (h1 + h2 - l1 - l2);
  }

  /** For every radius the bound lies in [0.13671875, 0.5], so its reciprocal exists;
      without blur it is exactly 0.5. */
  lemma BlurredGradientMaximumBounds(r: real)
    ensures 0.13671875 <= BlurredGradientMaximum(r) <= 0.5
    ensures r == 0.0 ==> BlurredGradientMaximum(r) == 0.5
  {
    TapPair(r, 1);
    TapPair(r, 2);
    TapPair(r, 3);
    TapPair(r, 4);
    assert HighTerm(r, 0) == 0.27343750 && LowTerm(r, 0) == 0.0;
    var d := HighSum(r, 5) - LowSum(r, 5);
    assert d == (HighTerm(r, 0) - LowTerm(r, 0))
              + (HighTerm(r, 1) + HighTerm(r, -1) - LowTerm(r, 1) - LowTerm(r, -1))
              + (HighTerm(r, 2) + HighTerm(r, -2) - LowTerm(r, 2) - LowTerm(r, -2))
              + (HighTerm(r, 3) + HighTerm(r, -3) - LowTerm(r, 3) - LowTerm(r, -3))
              + (HighTerm(r, 4) + HighTerm(r, -4) - LowTerm(r, 4) - LowTerm(r, -4));
    if r == 0.0 {
      assert forall k :: -4 <= k <= 4 ==> HighTerm(r, k) == Coefficient(k) && LowTerm(r, k) == 0.0;
    }
  }

  // ---------------------------------------------------------------------------------
  // Blur schedule of the Laplacian step
  // ---------------------------------------------------------------------------------

  lemma CeilDrops(d: real, step: real)
    requires d > 0.0 && 0.0 < step <= 1.0 && (step == 1.0 || step == d)
    ensures 0 <= Ceil(d - step) < Ceil(d)
  {
    if step == 1.0 {
      assert (-(d - 1.0)).Floor == (-d).Floor + 1;
    }
  }

  /** The blur amounts the loop applies from an accumulated amount `total` on: whole
      units while at least one remains, then the remaining fraction. */
  function BlurSchedule(total: real, target: real): seq<real>
    decreases Ceil(target - total)
  {
    if total < target then
      var amount := Min(1.0, target - total);
      CeilDrops(target - total, amount);
      [amount] + BlurSchedule(total + amount, target)
    else []
  }

  function Sum(s: seq<real>): real
  {
    if s == [] then 0.0 else s[0] + Sum(s[1..])
  }

  /** Every amount lies in (0, 1], all but the last are whole units, the amounts add up
      to exactly what remained, and there are ceil(remaining) of them. */
  lemma {:induction false} BlurScheduleProperties(total: real, target: real)
    ensures var s := BlurSchedule(total, target);
            && (forall i :: 0 <= i < |s| ==> 0.0 < s[i] <= 1.0)
            && (forall i :: 0 <= i < |s| - 1 ==> s[i] == 1.0)
            && total + Sum(s) == Max(total, target)
            && |s| == (if total < target then Ceil(target - total) else 0)
    decreases Ceil(target - total)
  {
    if total < target {
      var amount := Min(1.0, target - total);
      CeilDrops(target - total, amount);
      BlurScheduleProperties(total + amount, target);
      var rest := BlurSchedule(total + amount, target);
      var s := BlurSchedule(total, target);
      assert s == [amount] + rest;
      assert s[1..] == rest;
      if amount < 1.0 {
        assert rest == [];
      } else if total + amount < target {
        assert Ceil(target - total) == Ceil(target - (total + amount)) + 1 by {
          assert (-(target - total - 1.0)).Floor == (-(target - total)).Floor + 1;
        }
      } else {
        assert Ceil(target - total) == 1;
      }
    }
  }

  /** From no blur, a target of t >= 0 is reached in exactly ceil(t) steps. */
  lemma FullBlurSchedule(target: real)
    requires target >= 0.0
    ensures |BlurSchedule(0.0, target)| == Ceil(target)
    ensures Sum(BlurSchedule(0.0, target)) == target
  {
    BlurScheduleProperties(0.0, target);
    if target == 0.0 {
      assert Ceil(0.0) == 0;
    }
  }

  // ---------------------------------------------------------------------------------
  // Feature flags
  // ---------------------------------------------------------------------------------

  /** The feature flags derived from the compute shader and the velocity setting captured
      at Setup and from the swept-area setting read live each frame: every one of them
      needs the compute shader. */
  function UpdateMaskHeightFromComputeShader(computeShader: Option<ComputeShader>): (b: bool)
    ensures b <==> computeShader.Some?
  {
    computeShader.Some?
  }

  function UpdateLayerMaskFromFinalMaskHeight(computeShader: Option<ComputeShader>): (b: bool)
    ensures b <==> computeShader.Some?
  {
    UpdateMaskHeightFromComputeShader(computeShader)
  }

  function CaptureMotionVectors(computeShader: Option<ComputeShader>): (b: bool)
    ensures b <==> computeShader.Some?
  {
    UpdateMaskHeightFromComputeShader(computeShader)
  }

  function SimulateVelocity(simulateVelocityValue: bool, computeShader: Option<ComputeShader>): (b: bool)
    ensures b <==> simulateVelocityValue && computeShader.Some?
  {
    simulateVelocityValue && UpdateMaskHeightFromComputeShader(computeShader)
  }

  function ApproximateSweptArea(computeShader: Option<ComputeShader>, approximateSweptArea: bool): (b: bool)
    ensures b <==> approximateSweptArea && computeShader.Some?
    ensures b ==> CaptureMotionVectors(computeShader)
  {
    UpdateMaskHeightFromComputeShader(computeShader) && CaptureMotionVectors(computeShader) && approximateSweptArea
  }
}
