/** Copying the snow layers of a template material into a per-renderer property block,
    and the two checks run on a template before it is used.

    The copy is a fixed list of statements, each either copying one template property
    through a typed getter and setter or storing a constant. `CopyProgram` is that list
    for a layer count, `ApplyOps` is what running it does to the block, and the method
    `RunCopy` runs it statement by statement. */
module SnowMaterialUtil {

  import opened Common
  import opened SnowShaderId
  import opened Engine

  /** The typed getter and setter a statement goes through. */
  datatype Access = ColorAccess | TextureAccess | FloatAccess | IntAccess | VectorAccess

  /** A per-layer property family, scalar or texture. */
  datatype LayerField = Prop(property: LayerProperty) | Tex(kind: TextureKind)

  /** The key of field `f` in layer `l`. */
  function KeyAt(f: LayerField, l: nat): (k: PropertyKey)
    ensures LayerOf(k) == Some(l)
  {
    match f
    case Prop(p) => LayerKey(p, l)
    case Tex(kind) => TextureKey(LayerTexture(kind, l))
  }

  /** One statement of the copy. */
  datatype CopyOp =
    | Copy(access: Access, key: PropertyKey)
    | SetConst(key: PropertyKey, value: PropValue)

  /** The property copied by statement `i` of each extra layer's block. */
  function CopyField(i: int): (Access, LayerField)
  {
    match i
    case 0 => (ColorAccess, Prop(BaseColor))
    case 1 => (TextureAccess, Tex(BaseColorMap))
    case 2 => (FloatAccess, Prop(Metallic))
    case 3 => (FloatAccess, Prop(Smoothness))
    case 4 => (FloatAccess, Prop(SmoothnessRemapMin))
    case 5 => (FloatAccess, Prop(SmoothnessRemapMax))
    case 6 => (FloatAccess, Prop(AORemapMin))
    case 7 => (FloatAccess, Prop(AORemapMax))
    case 8 => (TextureAccess, Tex(MaskMap))
    case 9 => (TextureAccess, Tex(NormalMap))
    case 10 => (TextureAccess, Tex(NormalMapOS))
    case 11 => (FloatAccess, Prop(NormalScale))
    case 12 => (TextureAccess, Tex(BentNormalMap))
    case 13 => (TextureAccess, Tex(BentNormalMapOS))
    case 14 => (TextureAccess, Tex(HeightMap))
    case 15 => (FloatAccess, Prop(HeightAmplitude))
    case 16 => (FloatAccess, Prop(HeightCenter))
    case 17 => (IntAccess, Prop(HeightMapParametrization))
    case 18 => (FloatAccess, Prop(HeightOffset))
    case 19 => (FloatAccess, Prop(HeightMin))
    case 20 => (FloatAccess, Prop(HeightMax))
    case 21 => (FloatAccess, Prop(HeightTessAmplitude))
    case 22 => (FloatAccess, Prop(HeightTessCenter))
    case 23 => (FloatAccess, Prop(HeightPoMAmplitude))
    case 24 => (FloatAccess, Prop(DetailAlbedoScale))
    case 25 => (FloatAccess, Prop(DetailNormalScale))
    case 26 => (FloatAccess, Prop(DetailSmoothnessScale))
    case 27 => (FloatAccess, Prop(NormalMapSpace))
    case 28 => (IntAccess, Prop(DiffusionProfile))
    case 29 => (VectorAccess, Prop(DiffusionProfileAsset))
    case 30 => (FloatAccess, Prop(DiffusionProfileHash))
    case 31 => (FloatAccess, Prop(SubsurfaceMask))
    case 32 => (TextureAccess, Tex(SubsurfaceMaskMap))
    case 33 => (FloatAccess, Prop(Thickness))
    case 34 => (TextureAccess, Tex(ThicknessMap))
    case 35 => (VectorAccess, Prop(ThicknessRemap))
    case 36 => (FloatAccess, Prop(InheritBaseNormal))
    case 37 => (FloatAccess, Prop(InheritBaseHeight))
    case 38 => (FloatAccess, Prop(InheritBaseColor))
    case _ => (FloatAccess, Prop(OpacityAsDensity))
  }

  /** The properties copied for each extra layer, in the order they are copied. */
  function LayerCopyFields(): seq<(Access, LayerField)>
  {
    seq(40, CopyField)
  }


  /** The copy statements of layer `l`. */
  function LayerCopy(l: nat): seq<CopyOp>
  {
    seq(|LayerCopyFields()|, i requires 0 <= i < |LayerCopyFields()| =>
      Copy(LayerCopyFields()[i].0, KeyAt(LayerCopyFields()[i].1, l)))
  }

  /** The detail mapping mask stored for every overridden layer. */
  const DetailsMappingMask: Vec4 := Vec4(1.0, 0.0, 0.0, 0.0)

  /** The properties whose copied values are overridden after a layer is copied. */
  predicate Overridden(p: LayerProperty)
  {
    p == LinkDetailsWithBase || p == UVDetail || p == UVDetailsMappingMask
    || p == DetailAlbedoScale || p == DetailNormalScale || p == DetailSmoothnessScale
  }

  /** The constants that detach layer `l` from its detail map, which the depth-bake pass
      supplies itself. */
  function DetailOverrides(l: nat): seq<CopyOp>
  {
    [ SetConst(LayerKey(LinkDetailsWithBase, l), Number(0.0)),
      SetConst(LayerKey(UVDetail, l), Number(0.0)),
      SetConst(LayerKey(UVDetailsMappingMask, l), Vector(DetailsMappingMask)),
      SetConst(LayerKey(DetailAlbedoScale, l), Number(0.0)),
      SetConst(LayerKey(DetailNormalScale, l), Number(1.0)),
      SetConst(LayerKey(DetailSmoothnessScale, l), Number(0.0)) ]
  }

  /** The global blend properties copied whatever the layer count. */
  const CopiedGlobalFloats: seq<GlobalProperty> := [
    UseHeightBasedBlend, HeightTransition, UseDensityMode, UseMainLayerInfluence,
    LayerCount, VertexColorMode, ObjectScaleAffectTile, UVBlendMask ]

  const GlobalCopy: seq<CopyOp> := [
    Copy(FloatAccess, GlobalKey(UseHeightBasedBlend)),
    Copy(FloatAccess, GlobalKey(HeightTransition)),
    Copy(FloatAccess, GlobalKey(UseDensityMode)),
    Copy(FloatAccess, GlobalKey(UseMainLayerInfluence)),
    Copy(FloatAccess, GlobalKey(LayerCount)),
    Copy(FloatAccess, GlobalKey(VertexColorMode)),
    Copy(FloatAccess, GlobalKey(ObjectScaleAffectTile)),
    Copy(FloatAccess, GlobalKey(UVBlendMask)),
    Copy(ColorAccess, GlobalKey(UVMappingMaskBlendMask)),
    Copy(FloatAccess, GlobalKey(TexWorldScaleBlendMask))
  ]

  /** The block run for layer `l` when there are more than `l` layers: its copy
      statements followed by the overrides of layer `overridden`. */
  function LayerBlock(numLayers: int, l: nat, overridden: nat): seq<CopyOp>
  {
    if numLayers > l then LayerCopy(l) + DetailOverrides(overridden) else []
  }

  /** The statements as the copy is written: the third layer's block overrides the
      second layer's detail properties a second time. */
  function CopyProgramAsWritten(numLayers: int): seq<CopyOp>
  {
    LayerBlock(numLayers, 1, 1) + LayerBlock(numLayers, 2, 2) + LayerBlock(numLayers, 3, 2) + GlobalCopy
  }

  /** The statements with each layer's block overriding its own layer. */
  function CopyProgram(numLayers: int): seq<CopyOp>
  {
    LayerBlock(numLayers, 1, 1) + LayerBlock(numLayers, 2, 2) + LayerBlock(numLayers, 3, 3) + GlobalCopy
  }

  /** What a copy through getter `a` reads from the template: `None` when the getter
      throws, `Some(None)` when there is nothing to store (a null texture), and
      `Some(Some(v))` when `v` is to be stored. */
  function Read(template: Material, a: Access, k: PropertyKey): (r: Option<Option<PropValue>>)
    ensures r.None? <==> k in template.failing
    ensures r.Some? && r.value.None? <==> a == TextureAccess && k !in template.failing && StoredTexture(template, k).None?
  {
    match a
    case ColorAccess =>
      (match GetColor(template, k) case None => None case Some(c) => Some(Some(Vector(c))))
    case VectorAccess =>
      (match GetVector(template, k) case None => None case Some(v) => Some(Some(Vector(v))))
    case FloatAccess =>
      (match GetFloat(template, k) case None => None case Some(f) => Some(Some(Number(f))))
    case IntAccess =>
      (match GetInt(template, k) case None => None case Some(n) => Some(Some(Number(n as real))))
    case TextureAccess =>
      (match GetTexture(template, k)
       case None => None
       case Some(t) => if t.None? then Some(None) else Some(Some(TextureValue(t))))
  }

  function Effect(template: Material, op: CopyOp): Option<Option<PropValue>>
  {
    match op
    case SetConst(_, v) => Some(Some(v))
    case Copy(a, k) => Read(template, a, k)
  }

  function Store(values: map<PropertyKey, PropValue>, k: PropertyKey, w: Option<PropValue>): map<PropertyKey, PropValue>
  {
    if w.Some? then values[k := w.value] else values
  }

  /** The block's values after a run, and whether the run got to the end; a throwing
      getter ends the run with what was stored so far. */
  datatype CopyOutcome = CopyOutcome(values: map<PropertyKey, PropValue>, completed: bool)

  function ApplyOps(values: map<PropertyKey, PropValue>, template: Material, ops: seq<CopyOp>): CopyOutcome
    decreases |ops|
  {
    if ops == [] then CopyOutcome(values, true)
    else
      match Effect(template, ops[0])
      case None => CopyOutcome(values, false)
      case Some(w) => ApplyOps(Store(values, ops[0].key, w), template, ops[1..])
  }

  /** Runs the statements `ops` against `block`. It returns false where the source lets
      a getter's exception escape. */
  method RunCopy(template: Material, ops: seq<CopyOp>, block: PropertyBlock) returns (completed: bool)
    modifies block
    ensures CopyOutcome(block.values, completed) == ApplyOps(old(block.values), template, ops)
  {
    var i := 0;
    while i < |ops|
      invariant 0 <= i <= |ops|
      invariant ApplyOps(block.values, template, ops[i..]) == ApplyOps(old(block.values), template, ops)
    {
      assert ops[i..][0] == ops[i] && ops[i..][1..] == ops[i + 1..];
      match ops[i] {
        case SetConst(k, v) =>
          block.Set(k, v);
        case Copy(a, k) =>
          var read := Read(template, a, k);
          if read.None? {
            return false;
          }
          if read.value.Some? {
            block.Set(k, read.value.value);
          }
      }
      i := i + 1;
    }
    return true;
  }

  /** CopySnowLayersProperties: copies the layers beyond the first and the global blend
      properties of `template` into `block`. */
  method CopySnowLayersProperties(template: Material, numLayers: int, block: PropertyBlock) returns (completed: bool)
    modifies block
    ensures CopyOutcome(block.values, completed) == ApplyOps(old(block.values), template, CopyProgram(numLayers))
  {
    completed := RunCopy(template, CopyProgram(numLayers), block);
  }

  /** CopySnowLayersProperties as written, where the third layer's block overrides the
      second layer's keys. */
  method CopySnowLayersPropertiesAsWritten(template: Material, numLayers: int, block: PropertyBlock) returns (completed: bool)
    modifies block
    ensures CopyOutcome(block.values, completed) == ApplyOps(old(block.values), template, CopyProgramAsWritten(numLayers))
  {
    completed := RunCopy(template, CopyProgramAsWritten(numLayers), block);
  }

  // ---------------------------------------------------------------------------------
  // What running statements does

  /** No statement of `ops` names key `k`. */
  predicate Untouched(ops: seq<CopyOp>, k: PropertyKey)
  {
    forall i :: 0 <= i < |ops| ==> ops[i].key != k
  }

  lemma UntouchedSuffix(ops: seq<CopyOp>, j: nat, k: PropertyKey)
    requires j < |ops|
    requires forall i :: j < i < |ops| ==> ops[i].key != k
    ensures Untouched(ops[j + 1..], k)
  {
    var suffix := ops[j + 1..];
    forall i | 0 <= i < |suffix| ensures suffix[i].key != k {
      assert suffix[i] == ops[j + 1 + i];
    }
  }

  /** Maps `a` and `b` agree at `k`: both lack it or both hold the same value. */
  predicate Agree(a: map<PropertyKey, PropValue>, b: map<PropertyKey, PropValue>, k: PropertyKey)
  {
    (k in a <==> k in b) && (k in a ==> a[k] == b[k])
  }

  /** Running two lists one after the other is running their concatenation, the second
      only if the first got to its end. */
  lemma {:induction false} ApplyConcat(values: map<PropertyKey, PropValue>, t: Material, a: seq<CopyOp>, b: seq<CopyOp>)
    ensures ApplyOps(values, t, a + b) ==
      (var r := ApplyOps(values, t, a); if r.completed then ApplyOps(r.values, t, b) else r)
    decreases |a|
  {
    if a == [] {
      assert a + b == b;
    } else {
      assert (a + b)[0] == a[0] && (a + b)[1..] == a[1..] + b;
      match Effect(t, a[0])
      case None =>
      case Some(w) => ApplyConcat(Store(values, a[0].key, w), t, a[1..], b);
    }
  }

  /** A run gets to the end exactly when no copied property's getter throws. */
  lemma {:induction false} CompletesIff(values: map<PropertyKey, PropValue>, t: Material, ops: seq<CopyOp>)
    ensures ApplyOps(values, t, ops).completed <==>
      forall i :: 0 <= i < |ops| && ops[i].Copy? ==> ops[i].key !in t.failing
    decreases |ops|
  {
    if ops != [] {
      match Effect(t, ops[0])
      case None =>
      case Some(w) =>
        CompletesIff(Store(values, ops[0].key, w), t, ops[1..]);
        assert forall i :: 1 <= i < |ops| ==> ops[i] == ops[1..][i - 1];
    }
  }

  /** A key no statement names keeps its value. */
  lemma {:induction false} Frame(values: map<PropertyKey, PropValue>, t: Material, ops: seq<CopyOp>, k: PropertyKey)
    requires Untouched(ops, k)
    ensures Agree(ApplyOps(values, t, ops).values, values, k)
    decreases |ops|
  {
    if ops != [] {
      assert ops[0].key != k;
      match Effect(t, ops[0])
      case None =>
      case Some(w) =>
        assert Untouched(ops[1..], k) by {
          forall i | 0 <= i < |ops[1..]| ensures ops[1..][i].key != k {
            assert ops[1..][i] == ops[i + 1];
          }
        }
        Frame(Store(values, ops[0].key, w), t, ops[1..], k);
    }
  }

  /** A key whose statements are all texture copies keeps its value when the template
      texture is null. */
  lemma {:induction false} NullTextureKept(values: map<PropertyKey, PropValue>, t: Material, ops: seq<CopyOp>, k: PropertyKey)
    requires forall i :: 0 <= i < |ops| && ops[i].key == k ==> ops[i] == Copy(TextureAccess, k)
    requires StoredTexture(t, k).None?
    ensures Agree(ApplyOps(values, t, ops).values, values, k)
    decreases |ops|
  {
    if ops != [] {
      match Effect(t, ops[0])
      case None =>
      case Some(w) =>
        assert ops[0].key == k ==> w.None?;
        assert forall i :: 0 <= i < |ops[1..]| ==> ops[1..][i] == ops[i + 1];
        NullTextureKept(Store(values, ops[0].key, w), t, ops[1..], k);
    }
  }

  /** The statement at `j` of `block` is the last to name its key: if the run gets to
      the end, the key holds what that statement stored. */
  lemma LastWriteWins(values: map<PropertyKey, PropValue>, t: Material,
                      pre: seq<CopyOp>, block: seq<CopyOp>, post: seq<CopyOp>, j: nat)
    requires j < |block|
    requires Untouched(block[j + 1..], block[j].key) && Untouched(post, block[j].key)
    requires ApplyOps(values, t, pre + block + post).completed
    ensures Effect(t, block[j]).Some?
    ensures Effect(t, block[j]).value.Some? ==>
      var r := ApplyOps(values, t, pre + block + post).values;
      block[j].key in r && r[block[j].key] == Effect(t, block[j]).value.value
  {
    var k := block[j].key;
    var tail := block[j + 1..] + post;
    assert pre + block + post == (pre + block[..j]) + ([block[j]] + tail);
    ApplyConcat(values, t, pre + block[..j], [block[j]] + tail);
    var m := ApplyOps(values, t, pre + block[..j]).values;
    ApplyConcat(m, t, [block[j]], tail);
    assert ApplyOps(m, t, [block[j]]) ==
      (match Effect(t, block[j]) case None => CopyOutcome(m, false) case Some(w) => ApplyOps(Store(m, k, w), t, []));
    assert Untouched(tail, k) by {
      forall i | 0 <= i < |tail| ensures tail[i].key != k {
        if i < |block[j + 1..]| {
          assert tail[i] == block[j + 1..][i];
        } else {
          assert tail[i] == post[i - |block[j + 1..]|];
        }
      }
    }
    match Effect(t, block[j])
    case None =>
    case Some(w) =>
      Frame(Store(m, k, w), t, tail, k);
  }

  // ---------------------------------------------------------------------------------
  // The layer structure of the copy

  /** Every statement of `ops` names a key outside layer `l`. */
  predicate AvoidsLayer(ops: seq<CopyOp>, l: nat)
  {
    forall i :: 0 <= i < |ops| ==> LayerOf(ops[i].key) != Some(l)
  }

  /** The statements of a layer block name keys of its own layer or its overridden
      layer only. */
  lemma LayerBlockLayers(numLayers: int, l: nat, o: nat)
    ensures forall i :: 0 <= i < |LayerBlock(numLayers, l, o)| ==>
      LayerOf(LayerBlock(numLayers, l, o)[i].key) == Some(l) || LayerOf(LayerBlock(numLayers, l, o)[i].key) == Some(o)
  {
    if numLayers > l {
      var b := LayerBlock(numLayers, l, o);
      forall i | 0 <= i < |b|
        ensures LayerOf(b[i].key) == Some(l) || LayerOf(b[i].key) == Some(o)
      {
        if i < |LayerCopy(l)| {
          assert b[i] == LayerCopy(l)[i];
        } else {
          assert b[i] == DetailOverrides(o)[i - |LayerCopy(l)|];
        }
      }
    }
  }

  lemma GlobalCopyIsGlobal()
    ensures forall i :: 0 <= i < |GlobalCopy| ==>
      GlobalCopy[i].Copy? && GlobalCopy[i].key.GlobalKey? && GlobalCopy[i].access != TextureAccess
  {
  }

  lemma AvoidsConcat(a: seq<CopyOp>, b: seq<CopyOp>, l: nat)
    requires AvoidsLayer(a, l) && AvoidsLayer(b, l)
    ensures AvoidsLayer(a + b, l)
  {
    forall i | 0 <= i < |a + b| ensures LayerOf((a + b)[i].key) != Some(l) {
      if i >= |a| {
        assert (a + b)[i] == b[i - |a|];
      }
    }
  }

  lemma AvoidsUntouched(ops: seq<CopyOp>, l: nat, k: PropertyKey)
    requires AvoidsLayer(ops, l) && LayerOf(k) == Some(l)
    ensures Untouched(ops, k)
  {
  }

  /** The copy names a per-layer key only if its layer is from 1 to numLayers-1, so a
      key of layer 0, or of a layer the count excludes, keeps its value: with two layers
      or fewer no layer-2 or layer-3 key is touched. */
  lemma LayerGating(values: map<PropertyKey, PropValue>, t: Material, numLayers: int, k: PropertyKey)
    requires LayerOf(k).Some? && (LayerOf(k).value == 0 || LayerOf(k).value >= numLayers)
    ensures Agree(ApplyOps(values, t, CopyProgram(numLayers)).values, values, k)
  {
    var l := LayerOf(k).value;
    LayerBlockLayers(numLayers, 1, 1);
    LayerBlockLayers(numLayers, 2, 2);
    LayerBlockLayers(numLayers, 3, 3);
    GlobalCopyIsGlobal();
    var b1, b2, b3 := LayerBlock(numLayers, 1, 1), LayerBlock(numLayers, 2, 2), LayerBlock(numLayers, 3, 3);
    assert AvoidsLayer(b1, l) && AvoidsLayer(b2, l) && AvoidsLayer(b3, l) && AvoidsLayer(GlobalCopy, l);
    AvoidsConcat(b1, b2, l);
    AvoidsConcat(b1 + b2, b3, l);
    AvoidsConcat(b1 + b2 + b3, GlobalCopy, l);
    AvoidsUntouched(CopyProgram(numLayers), l, k);
    Frame(values, t, CopyProgram(numLayers), k);
  }

  /** The place of each field in LayerCopyFields; -1 for a field the copy does not name. */
  function FieldPosition(f: LayerField): int
  {
    match f
    case Prop(p) => PropertyPosition(p)
    case Tex(kind) => TexturePosition(kind)
  }

  function PropertyPosition(p: LayerProperty): int
  {
    match p
    case BaseColor => 0
    case Metallic => 2
    case Smoothness => 3
    case SmoothnessRemapMin => 4
    case SmoothnessRemapMax => 5
    case AORemapMin => 6
    case AORemapMax => 7
    case NormalScale => 11
    case HeightAmplitude => 15
    case HeightCenter => 16
    case HeightMapParametrization => 17
    case HeightOffset => 18
    case HeightMin => 19
    case HeightMax => 20
    case HeightTessAmplitude => 21
    case HeightTessCenter => 22
    case HeightPoMAmplitude => 23
    case DetailAlbedoScale => 24
    case DetailNormalScale => 25
    case DetailSmoothnessScale => 26
    case NormalMapSpace => 27
    case DiffusionProfile => 28
    case DiffusionProfileAsset => 29
    case DiffusionProfileHash => 30
    case SubsurfaceMask => 31
    case Thickness => 33
    case ThicknessRemap => 35
    case InheritBaseNormal => 36
    case InheritBaseHeight => 37
    case InheritBaseColor => 38
    case OpacityAsDensity => 39
    case LinkDetailsWithBase => -1
    case UVDetail => -1
    case UVDetailsMappingMask => -1
  }

  function TexturePosition(kind: TextureKind): int
  {
    match kind
    case DetailMap => -1
    case BaseColorMap => 1
    case MaskMap => 8
    case NormalMap => 9
    case NormalMapOS => 10
    case BentNormalMap => 12
    case BentNormalMapOS => 13
    case HeightMap => 14
    case SubsurfaceMaskMap => 32
    case ThicknessMap => 34
  }

  lemma FieldPositions()
    ensures forall i :: 0 <= i < |LayerCopyFields()| ==> FieldPosition(LayerCopyFields()[i].1) == i
  {
    forall i | 0 <= i < 40
      ensures FieldPosition(CopyField(i).1) == i
    {
    }
  }

  /** No two copy statements of a layer name the same property. */
  lemma LayerCopyFieldsDistinct()
    ensures forall i, j :: 0 <= i < j < |LayerCopyFields()| ==> LayerCopyFields()[i].1 != LayerCopyFields()[j].1
  {
    FieldPositions();
  }

  /** Texture families are always copied through the texture getter. */
  lemma TextureFieldsUseTextureAccess()
    ensures forall i :: 0 <= i < |LayerCopyFields()| ==>
      (LayerCopyFields()[i].1.Tex? <==> LayerCopyFields()[i].0 == TextureAccess)
  {
  }

  lemma OverridesKeys(o: nat)
    ensures forall i :: 0 <= i < |DetailOverrides(o)| ==>
      DetailOverrides(o)[i].SetConst? && DetailOverrides(o)[i].key.LayerKey? &&
      DetailOverrides(o)[i].key.layer == o && Overridden(DetailOverrides(o)[i].key.property)
  {
  }

  /** The rest of the copy after the block of layer `l`, and what comes before it. */
  function Before(numLayers: int, l: nat): seq<CopyOp>
    requires 1 <= l <= 3
  {
    if l == 1 then []
    else if l == 2 then LayerBlock(numLayers, 1, 1)
    else LayerBlock(numLayers, 1, 1) + LayerBlock(numLayers, 2, 2)
  }

  function After(numLayers: int, l: nat): seq<CopyOp>
    requires 1 <= l <= 3
  {
    if l == 1 then LayerBlock(numLayers, 2, 2) + LayerBlock(numLayers, 3, 3) + GlobalCopy
    else if l == 2 then LayerBlock(numLayers, 3, 3) + GlobalCopy
    else GlobalCopy
  }

  lemma Assoc(a: seq<CopyOp>, b: seq<CopyOp>, c: seq<CopyOp>)
    ensures a + b + c == a + (b + c)
  {
  }

  lemma SplitAtLayer(numLayers: int, l: nat)
    requires 1 <= l <= 3 && l < numLayers
    ensures CopyProgram(numLayers) == Before(numLayers, l) + LayerCopy(l) + (DetailOverrides(l) + After(numLayers, l))
    ensures AvoidsLayer(After(numLayers, l), l)
  {
    var b1, b2, b3 := LayerBlock(numLayers, 1, 1), LayerBlock(numLayers, 2, 2), LayerBlock(numLayers, 3, 3);
    var g := GlobalCopy;
    var lc, d := LayerCopy(l), DetailOverrides(l);
    assert CopyProgram(numLayers) == b1 + b2 + b3 + g;
    Assoc(b1 + b2, b3, g);
    if l == 1 {
      Assoc(b1, b2, b3 + g);
      Assoc(b2, b3, g);
      Assoc(lc, d, After(numLayers, l));
      assert [] + lc == lc;
    } else if l == 2 {
      Assoc(b1, b2, b3 + g);
      Assoc(lc, d, b3 + g);
      Assoc(b1, lc, d + (b3 + g));
    } else {
      Assoc(lc, d, g);
      Assoc(b1 + b2, lc, d + g);
    }
    AfterAvoids(numLayers, l);
  }

  lemma AfterAvoids(numLayers: int, l: nat)
    requires 1 <= l <= 3
    ensures AvoidsLayer(After(numLayers, l), l)
  {
    LayerBlockLayers(numLayers, 2, 2);
    LayerBlockLayers(numLayers, 3, 3);
    GlobalCopyIsGlobal();
    if l == 1 {
      AvoidsConcat(LayerBlock(numLayers, 2, 2), LayerBlock(numLayers, 3, 3), l);
      AvoidsConcat(LayerBlock(numLayers, 2, 2) + LayerBlock(numLayers, 3, 3), GlobalCopy, l);
    } else if l == 2 {
      AvoidsConcat(LayerBlock(numLayers, 3, 3), GlobalCopy, l);
    }
  }

  /** A property of an extra layer that is not overridden ends as the template's value
      when the copy gets to its end and the getter yields something to store. */
  lemma LayerPropertyCopied(values: map<PropertyKey, PropValue>, t: Material, numLayers: int, l: nat, j: nat)
    requires 1 <= l <= 3 && l < numLayers && j < |LayerCopyFields()|
    requires !(LayerCopyFields()[j].1.Prop? && Overridden(LayerCopyFields()[j].1.property))
    requires ApplyOps(values, t, CopyProgram(numLayers)).completed
    ensures var k := KeyAt(LayerCopyFields()[j].1, l);
      var e := Read(t, LayerCopyFields()[j].0, k);
      var r := ApplyOps(values, t, CopyProgram(numLayers)).values;
      e.Some? && (e.value.Some? ==> k in r && r[k] == e.value.value)
  {
    var k := KeyAt(LayerCopyFields()[j].1, l);
    var block := LayerCopy(l);
    var post := DetailOverrides(l) + After(numLayers, l);
    SplitAtLayer(numLayers, l);
    LayerCopyFieldsDistinct();
    OverridesKeys(l);
    UntouchedSuffix(block, j, k);
    assert Untouched(post, k) by {
      AvoidsUntouched(After(numLayers, l), l, k);
      forall i | 0 <= i < |post| ensures post[i].key != k {
        if i >= 6 {
          assert post[i] == After(numLayers, l)[i - 6];
        }
      }
    }
    LastWriteWins(values, t, Before(numLayers, l), block, post, j);
  }

  /** After a complete copy, every extra layer below the count has its detail
      properties overridden, whatever the template held. */
  lemma DetailOverridesFinal(values: map<PropertyKey, PropValue>, t: Material, numLayers: int, l: nat)
    requires 1 <= l <= 3 && l < numLayers
    requires ApplyOps(values, t, CopyProgram(numLayers)).completed
    ensures OverridesStored(ApplyOps(values, t, CopyProgram(numLayers)).values, l)
  {
    SplitAtLayer(numLayers, l);
    var pre := Before(numLayers, l) + LayerCopy(l);
    assert CopyProgram(numLayers) == pre + DetailOverrides(l) + After(numLayers, l);
    OverridesLast(values, t, pre, l, After(numLayers, l));
  }

  /** The block holds the detail overrides of layer `l`. */
  predicate OverridesStored(r: map<PropertyKey, PropValue>, l: nat)
  {
    && LayerKey(LinkDetailsWithBase, l) in r && r[LayerKey(LinkDetailsWithBase, l)] == Number(0.0)
    && LayerKey(UVDetail, l) in r && r[LayerKey(UVDetail, l)] == Number(0.0)
    && LayerKey(UVDetailsMappingMask, l) in r && r[LayerKey(UVDetailsMappingMask, l)] == Vector(DetailsMappingMask)
    && LayerKey(DetailAlbedoScale, l) in r && r[LayerKey(DetailAlbedoScale, l)] == Number(0.0)
    && LayerKey(DetailNormalScale, l) in r && r[LayerKey(DetailNormalScale, l)] == Number(1.0)
    && LayerKey(DetailSmoothnessScale, l) in r && r[LayerKey(DetailSmoothnessScale, l)] == Number(0.0)
  }

  /** Overrides followed only by statements outside their layer are final. */
  lemma OverridesLast(values: map<PropertyKey, PropValue>, t: Material, pre: seq<CopyOp>, l: nat, post: seq<CopyOp>)
    requires AvoidsLayer(post, l)
    requires ApplyOps(values, t, pre + DetailOverrides(l) + post).completed
    ensures OverridesStored(ApplyOps(values, t, pre + DetailOverrides(l) + post).values, l)
  {
    OverrideFinal(values, t, pre, l, post, 0);
    OverrideFinal(values, t, pre, l, post, 1);
    OverrideFinal(values, t, pre, l, post, 2);
    OverrideFinal(values, t, pre, l, post, 3);
    OverrideFinal(values, t, pre, l, post, 4);
    OverrideFinal(values, t, pre, l, post, 5);
  }

  /** Override `j` of layer `l` holds at the end of the run. */
  lemma OverrideFinal(values: map<PropertyKey, PropValue>, t: Material, pre: seq<CopyOp>, l: nat, post: seq<CopyOp>, j: nat)
    requires j < 6 && AvoidsLayer(post, l)
    requires ApplyOps(values, t, pre + DetailOverrides(l) + post).completed
    ensures var op := DetailOverrides(l)[j];
      var r := ApplyOps(values, t, pre + DetailOverrides(l) + post).values;
      op.key in r && r[op.key] == op.value
  {
    var block := DetailOverrides(l);
    OverridesKeys(l);
    UntouchedSuffix(block, j, block[j].key);
    AvoidsUntouched(post, l, block[j].key);
    LastWriteWins(values, t, pre, block, post, j);
  }

  /** The ten global blend properties end as the template's values after a complete
      copy, whatever the layer count. */
  lemma GlobalsCopied(values: map<PropertyKey, PropValue>, t: Material, numLayers: int)
    requires ApplyOps(values, t, CopyProgram(numLayers)).completed
    ensures GlobalsStored(ApplyOps(values, t, CopyProgram(numLayers)).values, t)
  {
    var pre := LayerBlock(numLayers, 1, 1) + LayerBlock(numLayers, 2, 2) + LayerBlock(numLayers, 3, 3);
    assert CopyProgram(numLayers) == pre + GlobalCopy;
    GlobalsLast(values, t, pre);
  }

  /** The block holds the template's global blend properties. */
  predicate GlobalsStored(r: map<PropertyKey, PropValue>, t: Material)
  {
    && (forall g :: g in CopiedGlobalFloats ==> GlobalKey(g) in r && r[GlobalKey(g)] == Number(StoredFloat(t, GlobalKey(g))))
    && GlobalKey(TexWorldScaleBlendMask) in r
    && r[GlobalKey(TexWorldScaleBlendMask)] == Number(StoredFloat(t, GlobalKey(TexWorldScaleBlendMask)))
    && GlobalKey(UVMappingMaskBlendMask) in r
    && r[GlobalKey(UVMappingMaskBlendMask)] == Vector(StoredVector(t, GlobalKey(UVMappingMaskBlendMask)))
  }

  lemma GlobalsLast(values: map<PropertyKey, PropValue>, t: Material, pre: seq<CopyOp>)
    requires ApplyOps(values, t, pre + GlobalCopy).completed
    ensures GlobalsStored(ApplyOps(values, t, pre + GlobalCopy).values, t)
  {
    var r := ApplyOps(values, t, pre + GlobalCopy).values;
    assert pre + GlobalCopy == pre + GlobalCopy + [];
    GlobalCopyDistinct();
    GlobalCopyIsGlobal();
    forall j | 0 <= j < |GlobalCopy|
      ensures Effect(t, GlobalCopy[j]).Some? && Effect(t, GlobalCopy[j]).value.Some?
      ensures GlobalCopy[j].key in r && r[GlobalCopy[j].key] == Effect(t, GlobalCopy[j]).value.value
    {
      UntouchedSuffix(GlobalCopy, j, GlobalCopy[j].key);
      LastWriteWins(values, t, pre, GlobalCopy, [], j);
    }
    forall g | g in CopiedGlobalFloats
      ensures GlobalKey(g) in r && r[GlobalKey(g)] == Number(StoredFloat(t, GlobalKey(g)))
    {
      var j :| 0 <= j < |CopiedGlobalFloats| && CopiedGlobalFloats[j] == g;
      assert GlobalCopy[j] == Copy(FloatAccess, GlobalKey(g));
    }
    assert GlobalCopy[8] == Copy(ColorAccess, GlobalKey(UVMappingMaskBlendMask));
    assert GlobalCopy[9] == Copy(FloatAccess, GlobalKey(TexWorldScaleBlendMask));
  }

  lemma GlobalCopyDistinct()
    ensures forall i, j :: 0 <= i < j < |GlobalCopy| ==> GlobalCopy[i].key != GlobalCopy[j].key
  {
  }

  /** A texture property of the template that is null is not stored: the block keeps
      whatever it held for that texture. */
  lemma NullTextureNotCopied(values: map<PropertyKey, PropValue>, t: Material, numLayers: int, tex: TextureName)
    requires StoredTexture(t, TextureKey(tex)).None?
    ensures Agree(ApplyOps(values, t, CopyProgram(numLayers)).values, values, TextureKey(tex))
  {
    var k := TextureKey(tex);
    var b1, b2, b3 := LayerBlock(numLayers, 1, 1), LayerBlock(numLayers, 2, 2), LayerBlock(numLayers, 3, 3);
    BlockTextureStatements(numLayers, 1, 1, k);
    BlockTextureStatements(numLayers, 2, 2, k);
    BlockTextureStatements(numLayers, 3, 3, k);
    GlobalCopyIsGlobal();
    TextureOnlyConcat(b1, b2, k);
    TextureOnlyConcat(b1 + b2, b3, k);
    TextureOnlyConcat(b1 + b2 + b3, GlobalCopy, k);
    NullTextureKept(values, t, CopyProgram(numLayers), k);
  }

  /** Every statement of `ops` naming `k` copies it through the texture getter. */
  predicate TextureOnly(ops: seq<CopyOp>, k: PropertyKey)
  {
    forall i :: 0 <= i < |ops| && ops[i].key == k ==> ops[i] == Copy(TextureAccess, k)
  }

  lemma TextureOnlyConcat(a: seq<CopyOp>, b: seq<CopyOp>, k: PropertyKey)
    requires TextureOnly(a, k) && TextureOnly(b, k)
    ensures TextureOnly(a + b, k)
  {
    forall i | 0 <= i < |a + b| && (a + b)[i].key == k ensures (a + b)[i] == Copy(TextureAccess, k) {
      if i >= |a| {
        assert (a + b)[i] == b[i - |a|];
      }
    }
  }

  lemma BlockTextureStatements(numLayers: int, l: nat, o: nat, k: PropertyKey)
    requires k.TextureKey?
    ensures TextureOnly(LayerBlock(numLayers, l, o), k)
  {
    if numLayers > l {
      TextureFieldsUseTextureAccess();
      OverridesKeys(o);
      var b := LayerBlock(numLayers, l, o);
      forall i | 0 <= i < |b| && b[i].key == k ensures b[i] == Copy(TextureAccess, k) {
        if i < |LayerCopy(l)| {
          assert b[i] == LayerCopy(l)[i];
        }
      }
    }
  }

  // ---------------------------------------------------------------------------------
  // The copy as written

  lemma SplitAsWritten(numLayers: int)
    requires numLayers > 3
    ensures CopyProgramAsWritten(numLayers) ==
      (LayerBlock(numLayers, 1, 1) + LayerBlock(numLayers, 2, 2)) + LayerCopy(3) + (DetailOverrides(2) + GlobalCopy)
  {
  }

  /** The copy as written leaves the third layer's detail scales at the template's
      values and never stores its detail link or detail UV set. */
  lemma AsWrittenLayer3DetailsFromTemplate(values: map<PropertyKey, PropValue>, t: Material, numLayers: int)
    requires numLayers > 3
    requires ApplyOps(values, t, CopyProgramAsWritten(numLayers)).completed
    ensures var r := ApplyOps(values, t, CopyProgramAsWritten(numLayers)).values;
      && LayerKey(DetailAlbedoScale, 3) in r
      && r[LayerKey(DetailAlbedoScale, 3)] == Number(StoredFloat(t, LayerKey(DetailAlbedoScale, 3)))
      && LayerKey(DetailNormalScale, 3) in r
      && r[LayerKey(DetailNormalScale, 3)] == Number(StoredFloat(t, LayerKey(DetailNormalScale, 3)))
      && Agree(r, values, LayerKey(LinkDetailsWithBase, 3))
      && Agree(r, values, LayerKey(UVDetail, 3))
  {
    var pre := LayerBlock(numLayers, 1, 1) + LayerBlock(numLayers, 2, 2);
    var block := LayerCopy(3);
    var post := DetailOverrides(2) + GlobalCopy;
    SplitAsWritten(numLayers);
    LayerCopyFieldsDistinct();
    OverridesKeys(2);
    GlobalCopyIsGlobal();
    assert block[24] == Copy(FloatAccess, LayerKey(DetailAlbedoScale, 3));
    assert block[25] == Copy(FloatAccess, LayerKey(DetailNormalScale, 3));
    forall j | j == 24 || j == 25 ensures Untouched(block[j + 1..], block[j].key) && Untouched(post, block[j].key) {
      UntouchedSuffix(block, j, block[j].key);
      forall i | 0 <= i < |post| ensures post[i].key != block[j].key {
        if i >= 6 {
          assert post[i] == GlobalCopy[i - 6];
        }
      }
    }
    LastWriteWins(values, t, pre, block, post, 24);
    LastWriteWins(values, t, pre, block, post, 25);
    UntouchedLinkAndUVDetail3(numLayers);
    Frame(values, t, CopyProgramAsWritten(numLayers), LayerKey(LinkDetailsWithBase, 3));
    Frame(values, t, CopyProgramAsWritten(numLayers), LayerKey(UVDetail, 3));
  }

  lemma UntouchedLinkAndUVDetail3(numLayers: int)
    ensures Untouched(CopyProgramAsWritten(numLayers), LayerKey(LinkDetailsWithBase, 3))
    ensures Untouched(CopyProgramAsWritten(numLayers), LayerKey(UVDetail, 3))
  {
    var ops := CopyProgramAsWritten(numLayers);
    var b1, b2, b3 := LayerBlock(numLayers, 1, 1), LayerBlock(numLayers, 2, 2), LayerBlock(numLayers, 3, 2);
    LayerBlockLayers(numLayers, 1, 1);
    LayerBlockLayers(numLayers, 2, 2);
    GlobalCopyIsGlobal();
    OverridesKeys(2);
    CopyFieldsExcludeLinkAndUVDetail();
    forall i | 0 <= i < |ops|
      ensures ops[i].key != LayerKey(LinkDetailsWithBase, 3) && ops[i].key != LayerKey(UVDetail, 3)
    {
      if i < |b1| {
        assert ops[i] == b1[i];
      } else if i < |b1| + |b2| {
        assert ops[i] == b2[i - |b1|];
      } else if i < |b1| + |b2| + |b3| {
        var j := i - |b1| - |b2|;
        assert ops[i] == b3[j];
        if j < |LayerCopy(3)| {
          assert b3[j] == LayerCopy(3)[j];
        } else {
          assert b3[j] == DetailOverrides(2)[j - |LayerCopy(3)|];
        }
      } else {
        assert ops[i] == GlobalCopy[i - |b1| - |b2| - |b3|];
      }
    }
  }

  lemma CopyFieldsExcludeLinkAndUVDetail()
    ensures forall i :: 0 <= i < |LayerCopyFields()| ==>
      LayerCopyFields()[i].1 != Prop(LinkDetailsWithBase) && LayerCopyFields()[i].1 != Prop(UVDetail)
  {
  }

  /** A run over a template none of whose getters throws gets to the end. */
  lemma NothingFailingCompletes(values: map<PropertyKey, PropValue>, t: Material, ops: seq<CopyOp>)
    requires t.failing == {}
    ensures ApplyOps(values, t, ops).completed
  {
    CompletesIff(values, t, ops);
  }

  /** A template whose third-layer albedo detail scale is one half keeps that scale
      after the copy as written, for every count above three, where the corrected copy
      stores 0. */
  lemma AsWrittenDetailScaleCounterexample(numLayers: int)
    requires numLayers > 3
    ensures var t := Material([], map[LayerKey(DetailAlbedoScale, 3) := Number(0.5)], {}, {});
      var asWritten := ApplyOps(map[], t, CopyProgramAsWritten(numLayers)).values;
      var corrected := ApplyOps(map[], t, CopyProgram(numLayers)).values;
      && LayerKey(DetailAlbedoScale, 3) in asWritten && asWritten[LayerKey(DetailAlbedoScale, 3)] == Number(0.5)
      && LayerKey(DetailAlbedoScale, 3) in corrected && corrected[LayerKey(DetailAlbedoScale, 3)] == Number(0.0)
  {
    var t := Material([], map[LayerKey(DetailAlbedoScale, 3) := Number(0.5)], {}, {});
    NothingFailingCompletes(map[], t, CopyProgramAsWritten(numLayers));
    NothingFailingCompletes(map[], t, CopyProgram(numLayers));
    AsWrittenLayer3DetailsFromTemplate(map[], t, numLayers);
    DetailOverridesFinal(map[], t, numLayers, 3);
  }

  // ---------------------------------------------------------------------------------
  // ValidateSnowLayersProperties

  /** One check of the validation: a property readable through a typed getter, or a
      shader keyword enabled. */
  datatype Check = Has(access: Access, key: PropertyKey) | Keyword(keyword: string)

  /** The HasColor / HasTexture / HasFloat / HasInt / HasVector helpers: the template
      declares the property and reading it through that getter does not throw. */
  function HasAccess(t: Material, a: Access, k: PropertyKey): (b: bool)
    ensures b <==> HasProperty(t, k) && k !in t.failing
  {
    var readable := match a
      case ColorAccess => GetColor(t, k).Some?
      case TextureAccess => GetTexture(t, k).Some?
      case FloatAccess => GetFloat(t, k).Some?
      case IntAccess => GetInt(t, k).Some?
      case VectorAccess => GetVector(t, k).Some?;
    HasProperty(t, k) && readable
  }

  predicate CheckHolds(t: Material, c: Check)
  {
    match c
    case Has(a, k) => HasAccess(t, a, k)
    case Keyword(kw) => IsKeywordEnabled(t, kw)
  }

  /** The per-layer properties validated: the copied ones, with the detail map checked
      after the parallax amplitude. */
  const LayerCheckFields: seq<(Access, LayerField)> :=
    LayerCopyFields()[..24] + [(TextureAccess, Tex(DetailMap))] + LayerCopyFields()[24..]

  /** The checks that layer `l` has each of `fields` through its getter. */
  function FieldChecks(fields: seq<(Access, LayerField)>, l: nat): (c: seq<Check>)
    ensures |c| == |fields|
    ensures forall i :: 0 <= i < |fields| ==> c[i] == Has(fields[i].0, KeyAt(fields[i].1, l))
  {
    seq(|fields|, i requires 0 <= i < |fields| => Has(fields[i].0, KeyAt(fields[i].1, l)))
  }

  function LayerChecks(l: nat): seq<Check>
  {
    FieldChecks(LayerCheckFields, l) + [Keyword(DetailMapKeyword(l))]
  }

  const GlobalChecks: seq<Check> := [
    Has(TextureAccess, TextureKey(LayerMaskMap)),
    Has(TextureAccess, GlobalKey(LayerInfluenceMaskMap)),
    Has(FloatAccess, GlobalKey(UseHeightBasedBlend)),
    Has(FloatAccess, GlobalKey(HeightTransition)),
    Has(FloatAccess, GlobalKey(UseDensityMode)),
    Has(FloatAccess, GlobalKey(UseMainLayerInfluence)),
    Has(FloatAccess, GlobalKey(LayerCount)),
    Has(FloatAccess, GlobalKey(VertexColorMode)),
    Has(FloatAccess, GlobalKey(ObjectScaleAffectTile)),
    Has(FloatAccess, GlobalKey(UVBlendMask)),
    Has(ColorAccess, GlobalKey(UVMappingMaskBlendMask)),
    Has(FloatAccess, GlobalKey(TexWorldScaleBlendMask))
  ]

  /** The checks of layer `l`, made only when the material has more than `l` layers. */
  function LayerChecksIf(numLayers: int, l: nat): seq<Check>
  {
    if numLayers > l then LayerChecks(l) else []
  }

  function ValidationChecks(numLayers: int): seq<Check>
  {
    LayerChecksIf(numLayers, 1) + LayerChecksIf(numLayers, 2) + LayerChecksIf(numLayers, 3) + GlobalChecks
  }

  predicate AllHold(t: Material, checks: seq<Check>)
  {
    forall i :: 0 <= i < |checks| ==> CheckHolds(t, checks[i])
  }

  /** Each of `fields` is declared on layer `l` of the template and readable. */
  predicate FieldsReadable(t: Material, fields: seq<(Access, LayerField)>, l: nat)
  {
    forall i :: 0 <= i < |fields| ==>
      HasProperty(t, KeyAt(fields[i].1, l)) && KeyAt(fields[i].1, l) !in t.failing
  }

  /** Layer `l` of the template is usable: every validated property of the layer is
      declared and readable, and the layer's detail-map keyword is enabled. */
  predicate LayerValid(t: Material, l: nat)
  {
    FieldsReadable(t, LayerCheckFields, l) && IsKeywordEnabled(t, DetailMapKeyword(l))
  }

  /** The template's global blend properties and masks are declared and readable. */
  predicate GlobalsValid(t: Material)
  {
    forall i :: 0 <= i < |GlobalChecks| ==>
      HasProperty(t, GlobalChecks[i].key) && GlobalChecks[i].key !in t.failing
  }

  /** The template passes the validation of a material with `numLayers` layers. */
  predicate TemplateValid(t: Material, numLayers: int)
  {
    (forall l: nat :: 1 <= l < numLayers && l <= 3 ==> LayerValid(t, l)) && GlobalsValid(t)
  }

  /** Evaluates every check in turn and conjoins the outcomes; no check is skipped. */
  method EvaluateChecks(t: Material, checks: seq<Check>) returns (validated: bool)
    ensures validated <==> AllHold(t, checks)
  {
    validated := true;
    var i := 0;
    while i < |checks|
      invariant 0 <= i <= |checks|
      invariant validated <==> AllHold(t, checks[..i])
    {
      var holds := CheckHolds(t, checks[i]);
      assert checks[..i + 1] == checks[..i] + [checks[i]];
      AllHoldConcat(t, checks[..i], [checks[i]]);
      validated := validated && holds;
      i := i + 1;
    }
    assert checks[..i] == checks;
  }

  /** ValidateSnowLayersProperties: every statement is evaluated (the conjunction does
      not short-circuit) and none can throw, since each helper catches. */
  method ValidateSnowLayersProperties(t: Material, numLayers: int) returns (validated: bool)
    ensures validated <==> TemplateValid(t, numLayers)
  {
    validated := EvaluateChecks(t, ValidationChecks(numLayers));
    ValidationChecksMeaning(t, numLayers);
  }

  lemma AllHoldConcat(t: Material, a: seq<Check>, b: seq<Check>)
    ensures AllHold(t, a + b) <==> AllHold(t, a) && AllHold(t, b)
  {
    if AllHold(t, a) && AllHold(t, b) {
      forall i | 0 <= i < |a + b| ensures CheckHolds(t, (a + b)[i]) {
        if i >= |a| {
          assert (a + b)[i] == b[i - |a|];
        }
      }
    }
    if AllHold(t, a + b) {
      forall i | 0 <= i < |a| ensures CheckHolds(t, a[i]) {
        assert (a + b)[i] == a[i];
      }
      forall i | 0 <= i < |b| ensures CheckHolds(t, b[i]) {
        assert (a + b)[|a| + i] == b[i];
      }
    }
  }

  lemma FieldChecksMeaning(t: Material, fields: seq<(Access, LayerField)>, l: nat)
    ensures AllHold(t, FieldChecks(fields, l)) <==> FieldsReadable(t, fields, l)
  {
    var c := FieldChecks(fields, l);
    if AllHold(t, c) {
      forall i | 0 <= i < |fields|
        ensures HasProperty(t, KeyAt(fields[i].1, l)) && KeyAt(fields[i].1, l) !in t.failing
      {
        assert CheckHolds(t, c[i]);
      }
    }
  }

  lemma LayerChecksMeaning(t: Material, l: nat)
    ensures AllHold(t, LayerChecks(l)) <==> LayerValid(t, l)
  {
    AllHoldConcat(t, FieldChecks(LayerCheckFields, l), [Keyword(DetailMapKeyword(l))]);
    FieldChecksMeaning(t, LayerCheckFields, l);
    assert AllHold(t, [Keyword(DetailMapKeyword(l))]) <==> IsKeywordEnabled(t, DetailMapKeyword(l)) by {
      assert [Keyword(DetailMapKeyword(l))][0] == Keyword(DetailMapKeyword(l));
    }
  }

  lemma LayerChecksIfMeaning(t: Material, numLayers: int, l: nat)
    ensures AllHold(t, LayerChecksIf(numLayers, l)) <==> (numLayers > l ==> LayerValid(t, l))
  {
    LayerChecksMeaning(t, l);
  }

  lemma GlobalChecksMeaning(t: Material)
    ensures AllHold(t, GlobalChecks) <==> GlobalsValid(t)
  {
    forall i | 0 <= i < |GlobalChecks|
      ensures CheckHolds(t, GlobalChecks[i]) <==> HasProperty(t, GlobalChecks[i].key) && GlobalChecks[i].key !in t.failing
    {
      assert GlobalChecks[i].Has?;
    }
  }

  /** The checks of ValidationChecks hold exactly when the template is valid. */
  lemma ValidationChecksMeaning(t: Material, numLayers: int)
    ensures AllHold(t, ValidationChecks(numLayers)) <==> TemplateValid(t, numLayers)
  {
    var c1, c2, c3 := LayerChecksIf(numLayers, 1), LayerChecksIf(numLayers, 2), LayerChecksIf(numLayers, 3);
    AllHoldConcat(t, c1, c2);
    AllHoldConcat(t, c1 + c2, c3);
    AllHoldConcat(t, c1 + c2 + c3, GlobalChecks);
    LayerChecksIfMeaning(t, numLayers, 1);
    LayerChecksIfMeaning(t, numLayers, 2);
    LayerChecksIfMeaning(t, numLayers, 3);
    GlobalChecksMeaning(t);
    if (numLayers > 1 ==> LayerValid(t, 1)) && (numLayers > 2 ==> LayerValid(t, 2)) && (numLayers > 3 ==> LayerValid(t, 3)) {
      forall l: nat | 1 <= l < numLayers && l <= 3 ensures LayerValid(t, l) {
        assert l == 1 || l == 2 || l == 3;
      }
    }
  }

  /** Every property the statements `ops` copy is readable from the template. */
  predicate CopiesReadable(t: Material, ops: seq<CopyOp>)
  {
    forall i :: 0 <= i < |ops| && ops[i].Copy? ==> ops[i].key !in t.failing
  }

  lemma CopiesReadableConcat(t: Material, a: seq<CopyOp>, b: seq<CopyOp>)
    requires CopiesReadable(t, a) && CopiesReadable(t, b)
    ensures CopiesReadable(t, a + b)
  {
    forall i | 0 <= i < |a + b| && (a + b)[i].Copy? ensures (a + b)[i].key !in t.failing {
      if i >= |a| {
        assert (a + b)[i] == b[i - |a|];
      }
    }
  }

  /** A template that passes validation is copied without an exception: every property
      the copy reads is one the validation found readable. */
  lemma ValidatedTemplateCopies(values: map<PropertyKey, PropValue>, t: Material, numLayers: int)
    requires TemplateValid(t, numLayers)
    ensures ApplyOps(values, t, CopyProgram(numLayers)).completed
  {
    var b1, b2, b3 := LayerBlock(numLayers, 1, 1), LayerBlock(numLayers, 2, 2), LayerBlock(numLayers, 3, 3);
    BlockReadable(t, numLayers, 1);
    BlockReadable(t, numLayers, 2);
    BlockReadable(t, numLayers, 3);
    GlobalCopyReadable(t);
    CopiesReadableConcat(t, b1, b2);
    CopiesReadableConcat(t, b1 + b2, b3);
    CopiesReadableConcat(t, b1 + b2 + b3, GlobalCopy);
    CompletesIff(values, t, CopyProgram(numLayers));
  }

  lemma BlockReadable(t: Material, numLayers: int, l: nat)
    requires 1 <= l <= 3 && (numLayers > l ==> LayerValid(t, l))
    ensures CopiesReadable(t, LayerBlock(numLayers, l, l))
  {
    if numLayers > l {
      forall i | 0 <= i < |LayerBlock(numLayers, l, l)| && LayerBlock(numLayers, l, l)[i].Copy?
        ensures LayerBlock(numLayers, l, l)[i].key !in t.failing
      {
        BlockCopiesValidated(t, numLayers, l, i);
      }
    }
  }

  lemma GlobalCopyReadable(t: Material)
    requires GlobalsValid(t)
    ensures CopiesReadable(t, GlobalCopy)
  {
    forall j | 0 <= j < |GlobalCopy| ensures GlobalCopy[j].key !in t.failing {
      assert GlobalCopy[j].key == GlobalChecks[j + 2].key;
    }
  }

  lemma BlockCopiesValidated(t: Material, numLayers: int, l: nat, i: nat)
    requires 1 <= l <= 3 && numLayers > l && LayerValid(t, l)
    requires i < |LayerBlock(numLayers, l, l)| && LayerBlock(numLayers, l, l)[i].Copy?
    ensures LayerBlock(numLayers, l, l)[i].key !in t.failing
  {
    var b := LayerBlock(numLayers, l, l);
    OverridesKeys(l);
    if i < |LayerCopy(l)| {
      assert b[i] == LayerCopy(l)[i];
      var j := if i < 24 then i else i + 1;
      assert LayerCheckFields[j] == LayerCopyFields()[i];
    }
  }

  // ---------------------------------------------------------------------------------
  // ValidateLayers2And3Equal

  /** One comparison between the second and third layer: a value through a typed
      getter, or a texture with its scale and offset. */
  datatype Pairing = SameValue(access: Access, property: LayerProperty) | SameTexture(kind: TextureKind)

  /** The comparisons, in order. Normal scale and the height-range properties are not
      compared, since the layers' height ranges are expected to differ. */
  const ComparedPairs: seq<Pairing> := [
    SameValue(ColorAccess, BaseColor),
    SameTexture(BaseColorMap),
    SameValue(FloatAccess, Metallic),
    SameValue(FloatAccess, Smoothness),
    SameValue(FloatAccess, SmoothnessRemapMin),
    SameValue(FloatAccess, SmoothnessRemapMax),
    SameValue(FloatAccess, AORemapMin),
    SameValue(FloatAccess, AORemapMax),
    SameTexture(MaskMap),
    SameTexture(NormalMap),
    SameTexture(NormalMapOS),
    SameTexture(BentNormalMap),
    SameTexture(BentNormalMapOS),
    SameTexture(HeightMap),
    SameValue(FloatAccess, DetailAlbedoScale),
    SameValue(FloatAccess, DetailNormalScale),
    SameValue(FloatAccess, DetailSmoothnessScale),
    SameValue(FloatAccess, NormalMapSpace),
    SameValue(IntAccess, DiffusionProfile),
    SameValue(VectorAccess, DiffusionProfileAsset),
    SameValue(FloatAccess, DiffusionProfileHash),
    SameValue(FloatAccess, SubsurfaceMask),
    SameTexture(SubsurfaceMaskMap),
    SameValue(FloatAccess, Thickness),
    SameTexture(ThicknessMap),
    SameValue(VectorAccess, ThicknessRemap),
    SameValue(FloatAccess, InheritBaseNormal),
    SameValue(FloatAccess, InheritBaseHeight),
    SameValue(FloatAccess, InheritBaseColor),
    SameValue(FloatAccess, OpacityAsDensity)
  ]

  function PairKey(p: Pairing, l: nat): PropertyKey
  {
    match p
    case SameValue(_, prop) => LayerKey(prop, l)
    case SameTexture(kind) => TextureKey(LayerTexture(kind, l))
  }

  function Same<T(==)>(a: Option<T>, b: Option<T>): (r: Option<bool>)
    ensures r.None? <==> a.None? || b.None?
    ensures r.Some? ==> (r.value <==> a.value == b.value)
  {
    if a.None? || b.None? then None else Some(a.value == b.value)
  }

  /** One comparison: `None` when one of the layers' getters throws. Textures are equal
      when the texture, its scale and its offset are. */
  function PairEqual(t: Material, p: Pairing): (r: Option<bool>)
    ensures r.None? <==> PairKey(p, 2) in t.failing || PairKey(p, 3) in t.failing
  {
    var a, b := PairKey(p, 2), PairKey(p, 3);
    match p
    case SameValue(access, _) =>
      (match access
       case ColorAccess => Same(GetColor(t, a), GetColor(t, b))
       case VectorAccess => Same(GetVector(t, a), GetVector(t, b))
       case FloatAccess => Same(GetFloat(t, a), GetFloat(t, b))
       case IntAccess => Same(GetInt(t, a), GetInt(t, b))
       case TextureAccess => Same(GetTexture(t, a), GetTexture(t, b)))
    case SameTexture(kind) =>
      var ta, tb := LayerTexture(kind, 2), LayerTexture(kind, 3);
      match Same(GetTexture(t, a), GetTexture(t, b))
      case None => None
      case Some(same) =>
        Some(same && GetTextureScale(t, ta) == GetTextureScale(t, tb)
                  && GetTextureOffset(t, ta) == GetTextureOffset(t, tb))
  }

  /** The result of comparing all pairs in order: `None` as soon as a getter throws. */
  function CompareAll(t: Material, pairs: seq<Pairing>): Option<bool>
    decreases |pairs|
  {
    if pairs == [] then Some(true)
    else
      match PairEqual(t, pairs[0])
      case None => None
      case Some(first) =>
        match CompareAll(t, pairs[1..])
        case None => None
        case Some(rest) => Some(first && rest)
  }

  /** ValidateLayers2And3Equal. `None` stands for the getter exception that escapes. */
  method ValidateLayers2And3Equal(t: Material) returns (result: Option<bool>)
    ensures result == CompareAll(t, ComparedPairs)
  {
    result := CompareInOrder(t, ComparedPairs);
  }

  /** The comparisons of `pairs` run one after the other, and-ed into `validated`. */
  method CompareInOrder(t: Material, pairs: seq<Pairing>) returns (result: Option<bool>)
    ensures result == CompareAll(t, pairs)
  {
    var validated := true;
    var i := 0;
    while i < |pairs|
      invariant 0 <= i <= |pairs|
      invariant CompareAll(t, pairs) ==
        (match CompareAll(t, pairs[i..]) case None => None case Some(rest) => Some(validated && rest))
    {
      assert pairs[i..][0] == pairs[i] && pairs[i..][1..] == pairs[i + 1..];
      var same := PairEqual(t, pairs[i]);
      if same.None? {
        return None;
      }
      validated := validated && same.value;
      i := i + 1;
    }
    return Some(validated);
  }

  /** The comparison throws exactly when a compared key of layer 2 or 3 has a throwing
      getter; otherwise it holds exactly when every compared pair is equal. */
  lemma {:induction false} CompareAllMeaning(t: Material, pairs: seq<Pairing>)
    ensures CompareAll(t, pairs).None? <==>
      exists i :: 0 <= i < |pairs| && (PairKey(pairs[i], 2) in t.failing || PairKey(pairs[i], 3) in t.failing)
    ensures CompareAll(t, pairs).Some? ==>
      (CompareAll(t, pairs).value <==> forall i :: 0 <= i < |pairs| ==> PairEqual(t, pairs[i]) == Some(true))
    decreases |pairs|
  {
    if pairs != [] {
      CompareAllMeaning(t, pairs[1..]);
      assert forall i :: 1 <= i < |pairs| ==> pairs[i] == pairs[1..][i - 1];
      if CompareAll(t, pairs).None? && PairEqual(t, pairs[0]).Some? {
        var j :| 0 <= j < |pairs[1..]| && (PairKey(pairs[1..][j], 2) in t.failing || PairKey(pairs[1..][j], 3) in t.failing);
        assert pairs[j + 1] == pairs[1..][j];
      }
    }
  }

  /** A material that differs only in one key no comparison names validates the same. */
  lemma {:induction false} CompareAllIgnores(t: Material, u: Material, pairs: seq<Pairing>, k: PropertyKey)
    requires u.failing == t.failing
    requires forall key :: key != k ==> (key in u.properties <==> key in t.properties)
    requires forall key :: key != k && key in t.properties ==> u.properties[key] == t.properties[key]
    requires forall i :: 0 <= i < |pairs| ==> PairKey(pairs[i], 2) != k && PairKey(pairs[i], 3) != k
    requires forall i :: 0 <= i < |pairs| ==> pairs[i].SameTexture? ==> ScaleOffsetKey(PairKey(pairs[i], 2).texture) != k && ScaleOffsetKey(PairKey(pairs[i], 3).texture) != k
    ensures CompareAll(u, pairs) == CompareAll(t, pairs)
    decreases |pairs|
  {
    if pairs != [] {
      assert forall i :: 1 <= i < |pairs| ==> pairs[i] == pairs[1..][i - 1];
      CompareAllIgnores(t, u, pairs[1..], k);
      var p := pairs[0];
      assert PairEqual(u, p) == PairEqual(t, p);
    }
  }

  /** Layer 3's normal scale and height-range properties play no part in the
      comparison: changing one of them leaves the result unchanged. */
  lemma HeightRangeNotCompared(t: Material, p: LayerProperty, v: PropValue)
    requires p == NormalScale || p == HeightAmplitude || p == HeightCenter || p == HeightMapParametrization
          || p == HeightOffset || p == HeightMin || p == HeightMax
          || p == HeightTessAmplitude || p == HeightTessCenter || p == HeightPoMAmplitude
    ensures CompareAll(t.(properties := t.properties[LayerKey(p, 3) := v]), ComparedPairs) == CompareAll(t, ComparedPairs)
  {
    var u := t.(properties := t.properties[LayerKey(p, 3) := v]);
    CompareAllIgnores(t, u, ComparedPairs, LayerKey(p, 3));
  }
}
