/** The shader-property key space of the layered snow material.

    Unity's Shader.PropertyToID maps every property name to an id, and distinct names
    get distinct ids within a run. The model therefore uses a structured key per name
    family (a per-layer property with its layer index, a global property, a texture, or
    a texture's scale/offset vector), and `Name` gives the shader property name that the
    key stands for. */
module SnowShaderId {

  import opened Common

  /** The per-layer scalar, colour and vector properties, one name family each
      (the layer index is appended to the name). */
  datatype LayerProperty =
    | BaseColor | Metallic | Smoothness | SmoothnessRemapMin | SmoothnessRemapMax
    | AORemapMin | AORemapMax | NormalScale | HeightAmplitude | HeightCenter
    | HeightMapParametrization | HeightOffset | HeightMin | HeightMax
    | HeightTessAmplitude | HeightTessCenter | HeightPoMAmplitude
    | DetailAlbedoScale | DetailNormalScale | DetailSmoothnessScale
    | NormalMapSpace | DiffusionProfile | DiffusionProfileAsset | DiffusionProfileHash
    | SubsurfaceMask | Thickness | ThicknessRemap
    | InheritBaseNormal | InheritBaseHeight | InheritBaseColor | OpacityAsDensity
    | LinkDetailsWithBase | UVDetail | UVDetailsMappingMask

  /** The per-layer texture families. */
  datatype TextureKind =
    | DetailMap | BaseColorMap | MaskMap | NormalMap | NormalMapOS
    | BentNormalMap | BentNormalMapOS | HeightMap | SubsurfaceMaskMap | ThicknessMap

  /** Properties of the material as a whole. */
  datatype GlobalProperty =
    | UseHeightBasedBlend | HeightTransition | UseDensityMode | UseMainLayerInfluence
    | LayerCount | VertexColorMode | ObjectScaleAffectTile | UVBlendMask
    | UVMappingMaskBlendMask | TexWorldScaleBlendMask | LayerInfluenceMaskMap

  datatype TextureName = LayerMaskMap | LayerTexture(kind: TextureKind, layer: nat)

  datatype PropertyKey =
    | LayerKey(property: LayerProperty, layer: nat)
    | GlobalKey(global: GlobalProperty)
    | TextureKey(texture: TextureName)
    | ScaleOffsetKey(texture: TextureName)

  /** The layer a key belongs to, if it is a per-layer key. */
  function LayerOf(k: PropertyKey): (l: Option<nat>)
    ensures l.Some? <==> (k.LayerKey? || ((k.TextureKey? || k.ScaleOffsetKey?) && k.texture.LayerTexture?))
  {
    match k
    case LayerKey(_, layer) => Some(layer)
    case GlobalKey(_) => None
    case TextureKey(t) => if t.LayerTexture? then Some(t.layer) else None
    case ScaleOffsetKey(t) => if t.LayerTexture? then Some(t.layer) else None
  }

  function LayerPropertyName(p: LayerProperty): string
  {
    match p
    case BaseColor => "_BaseColor"
    case Metallic => "_Metallic"
    case Smoothness => "_Smoothness"
    case SmoothnessRemapMin => "_SmoothnessRemapMin"
    case SmoothnessRemapMax => "_SmoothnessRemapMax"
    case AORemapMin => "_AORemapMin"
    case AORemapMax => "_AORemapMax"
    case NormalScale => "_NormalScale"
    case HeightAmplitude => "_HeightAmplitude"
    case HeightCenter => "_HeightCenter"
    case HeightMapParametrization => "_HeightMapParametrization"
    case HeightOffset => "_HeightOffset"
    case HeightMin => "_HeightMin"
    case HeightMax => "_HeightMax"
    case HeightTessAmplitude => "_HeightTessAmplitude"
    case HeightTessCenter => "_HeightTessCenter"
    case HeightPoMAmplitude => "_HeightPoMAmplitude"
    case DetailAlbedoScale => "_DetailAlbedoScale"
    case DetailNormalScale => "_DetailNormalScale"
    case DetailSmoothnessScale => "_DetailSmoothnessScale"
    case NormalMapSpace => "_NormalMapSpace"
    case DiffusionProfile => "_DiffusionProfile"
    case DiffusionProfileAsset => "_DiffusionProfileAsset"
    case DiffusionProfileHash => "_DiffusionProfileHash"
    case SubsurfaceMask => "_SubsurfaceMask"
    case Thickness => "_Thickness"
    case ThicknessRemap => "_ThicknessRemap"
    case InheritBaseNormal => "_InheritBaseNormal"
    case InheritBaseHeight => "_InheritBaseHeight"
    case InheritBaseColor => "_InheritBaseColor"
    case OpacityAsDensity => "_OpacityAsDensity"
    case LinkDetailsWithBase => "_LinkDetailsWithBase"
    case UVDetail => "_UVDetail"
    case UVDetailsMappingMask => "_UVDetailsMappingMask"
  }

  function TextureKindName(k: TextureKind): string
  {
    match k
    case DetailMap => "_DetailMap"
    case BaseColorMap => "_BaseColorMap"
    case MaskMap => "_MaskMap"
    case NormalMap => "_NormalMap"
    case NormalMapOS => "_NormalMapOS"
    case BentNormalMap => "_BentNormalMap"
    case BentNormalMapOS => "_BentNormalMapOS"
    case HeightMap => "_HeightMap"
    case SubsurfaceMaskMap => "_SubsurfaceMaskMap"
    case ThicknessMap => "_ThicknessMap"
  }

  function GlobalName(g: GlobalProperty): string
  {
    match g
    case UseHeightBasedBlend => "_UseHeightBasedBlend"
    case HeightTransition => "_HeightTransition"
    case UseDensityMode => "_UseDensityMode"
    case UseMainLayerInfluence => "_UseMainLayerInfluence"
    case LayerCount => "_LayerCount"
    case VertexColorMode => "_VertexColorMode"
    case ObjectScaleAffectTile => "_ObjectScaleAffectTile"
    case UVBlendMask => "_UVBlendMask"
    case UVMappingMaskBlendMask => "_UVMappingMaskBlendMask"
    case TexWorldScaleBlendMask => "_TexWorldScaleBlendMask"
    case LayerInfluenceMaskMap => "_LayerInfluenceMaskMap"
  }

  function DigitChar(d: nat): char
    requires d < 10
  {
    "0123456789"[d]
  }

  /** The decimal spelling of a layer index, as appended to a property name. */
  function Decimal(n: nat): (s: string)
    ensures |s| >= 1
    ensures n < 10 ==> s == [DigitChar(n)]
    decreases n
  {
    if n < 10 then [DigitChar(n)] else Decimal(n / 10) + [DigitChar(n % 10)]
  }

  function TextureNameString(t: TextureName): string
  {
    match t
    case LayerMaskMap => "_LayerMaskMap"
    case LayerTexture(kind, layer) => TextureKindName(kind) + Decimal(layer)
  }

  /** The shader property name a key stands for. */
  function Name(k: PropertyKey): string
  {
    match k
    case LayerKey(p, layer) => LayerPropertyName(p) + Decimal(layer)
    case GlobalKey(g) => GlobalName(g)
    case TextureKey(t) => TextureNameString(t)
    case ScaleOffsetKey(t) => TextureNameString(t) + "_ST"
  }

  /** A texture property's pair of ids: the texture itself and its scale/offset vector.
      Both are fixed when the value is built and a datatype value never changes, which
      is what the private setters of the engine-side class guarantee. */
  datatype TextureId = TextureId(id: PropertyKey, idST: PropertyKey)

  /** Builds the ids of the texture property called `t`. */
  function NewTextureId(t: TextureName): (d: TextureId)
    ensures d.id == TextureKey(t) && Name(d.id) == TextureNameString(t)
    ensures Name(d.idST) == Name(d.id) + "_ST"
    ensures d.idST != d.id
  {
    TextureId(TextureKey(t), ScaleOffsetKey(t))
  }

  /** The implicit int conversion of a texture id: the texture's own id. */
  function AsInt(d: TextureId): PropertyKey
  {
    d.id
  }

  /** Converting a texture id built for `t` yields the texture's id, never its
      scale/offset id. */
  lemma AsIntIsTextureId(t: TextureName)
    ensures AsInt(NewTextureId(t)) == TextureKey(t)
    ensures AsInt(NewTextureId(t)) != NewTextureId(t).idST
  {
  }

  /** The texture ids declared by the snow material, in declaration order. */
  const SnowTextureIds: seq<TextureName> := [
    LayerMaskMap,
    LayerTexture(DetailMap, 0), LayerTexture(DetailMap, 1),
    LayerTexture(DetailMap, 2), LayerTexture(DetailMap, 3),
    LayerTexture(BaseColorMap, 1), LayerTexture(BaseColorMap, 2), LayerTexture(BaseColorMap, 3),
    LayerTexture(MaskMap, 1), LayerTexture(MaskMap, 2), LayerTexture(MaskMap, 3),
    LayerTexture(NormalMap, 1), LayerTexture(NormalMap, 2), LayerTexture(NormalMap, 3),
    LayerTexture(NormalMapOS, 1), LayerTexture(NormalMapOS, 2), LayerTexture(NormalMapOS, 3),
    LayerTexture(BentNormalMap, 1), LayerTexture(BentNormalMap, 2), LayerTexture(BentNormalMap, 3),
    LayerTexture(BentNormalMapOS, 1), LayerTexture(BentNormalMapOS, 2), LayerTexture(BentNormalMapOS, 3),
    LayerTexture(HeightMap, 1), LayerTexture(HeightMap, 2), LayerTexture(HeightMap, 3),
    LayerTexture(SubsurfaceMaskMap, 1), LayerTexture(SubsurfaceMaskMap, 2), LayerTexture(SubsurfaceMaskMap, 3),
    LayerTexture(ThicknessMap, 1), LayerTexture(ThicknessMap, 2), LayerTexture(ThicknessMap, 3)
  ]

  predicate DeclaredTexture(t: TextureName)
  {
    t == LayerMaskMap
    || (t.kind == DetailMap && t.layer <= 3)
    || (t.kind != DetailMap && 1 <= t.layer <= 3)
  }

  /** Every declared entry is the layer-mask map, the detail map of a layer from 0 to 3,
      or one of the nine other texture kinds for a layer from 1 to 3 ... */
  lemma SnowTextureIdsSound()
    ensures forall i :: 0 <= i < |SnowTextureIds| ==> DeclaredTexture(SnowTextureIds[i])
  {
  }

  /** ... and each of those is declared. */
  lemma SnowTextureIdsComplete(t: TextureName)
    requires DeclaredTexture(t)
    ensures t in SnowTextureIds
  {
    if t.LayerTexture? {
      match t.kind
      case DetailMap => { assert SnowTextureIds[1 + t.layer] == t; }
      case BaseColorMap => { assert SnowTextureIds[4 + t.layer] == t; }
      case MaskMap => { assert SnowTextureIds[7 + t.layer] == t; }
      case NormalMap => { assert SnowTextureIds[10 + t.layer] == t; }
      case NormalMapOS => { assert SnowTextureIds[13 + t.layer] == t; }
      case BentNormalMap => { assert SnowTextureIds[16 + t.layer] == t; }
      case BentNormalMapOS => { assert SnowTextureIds[19 + t.layer] == t; }
      case HeightMap => { assert SnowTextureIds[22 + t.layer] == t; }
      case SubsurfaceMaskMap => { assert SnowTextureIds[25 + t.layer] == t; }
      case ThicknessMap => { assert SnowTextureIds[28 + t.layer] == t; }
    } else {
      assert SnowTextureIds[0] == t;
    }
  }

  /** No texture id is declared twice. */
  lemma SnowTextureIdsDistinct()
    ensures |SnowTextureIds| == 32
    ensures forall i, j :: 0 <= i < j < |SnowTextureIds| ==> SnowTextureIds[i] != SnowTextureIds[j]
  {
  }

  /** The keyword that enables the detail map of layer `l`. */
  function DetailMapKeyword(l: nat): (kw: string)
    ensures 1 <= l <= 3 ==> kw == "_DETAIL_MAP" + [DigitChar(l)]
  {
    "_DETAIL_MAP" + Decimal(l)
  }
}
