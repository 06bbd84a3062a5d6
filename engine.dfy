/** The engine objects the scripts query (materials, compute shaders, property blocks),
    reduced to what the scripts can observe of them. */
module Engine {

  import opened Common
  import opened SnowShaderId

  /** A non-null texture asset, told apart by identity only. A null texture reference is
      `None` wherever one can occur. */
  datatype Texture = Texture(handle: nat)

  /** A stored property value. The engine keeps colours and vectors in the same
      four-component form, so both are `Vector`. */
  datatype PropValue =
    | Number(number: real)
    | Vector(vector: Vec4)
    | TextureValue(texture: Option<Texture>)

  /** A material: the pass names of its shader in pass-index order, the properties its
      shader declares with their current values, the properties whose getters throw,
      and the shader keywords enabled on it. */
  datatype Material = Material(
    passNames: seq<string>,
    properties: map<PropertyKey, PropValue>,
    failing: set<PropertyKey>,
    keywords: set<string>)

  const Black: Vec4 := Vec4(0.0, 0.0, 0.0, 0.0)

  predicate HasProperty(m: Material, k: PropertyKey)
  {
    k in m.properties
  }

  predicate IsKeywordEnabled(m: Material, keyword: string)
  {
    keyword in m.keywords
  }

  /** What a float getter reads: the stored number, or 0 when the property is absent. */
  function StoredFloat(m: Material, k: PropertyKey): real
  {
    if k in m.properties && m.properties[k].Number? then m.properties[k].number else 0.0
  }

  /** What a colour or vector getter reads: the stored vector, or zero when absent. */
  function StoredVector(m: Material, k: PropertyKey): Vec4
  {
    if k in m.properties && m.properties[k].Vector? then m.properties[k].vector else Black
  }

  /** What a texture getter reads: the stored texture, or null when absent. */
  function StoredTexture(m: Material, k: PropertyKey): Option<Texture>
  {
    if k in m.properties && m.properties[k].TextureValue? then m.properties[k].texture else None
  }

  /** Material.GetFloat; `None` when the getter throws. */
  function GetFloat(m: Material, k: PropertyKey): Option<real>
  {
    if k in m.failing then None else Some(StoredFloat(m, k))
  }

  /** Material.GetInt: the stored float cast to an int. */
  function GetInt(m: Material, k: PropertyKey): Option<int>
  {
    if k in m.failing then None else Some(TruncToInt(StoredFloat(m, k)))
  }

  function GetColor(m: Material, k: PropertyKey): Option<Vec4>
  {
    if k in m.failing then None else Some(StoredVector(m, k))
  }

  function GetVector(m: Material, k: PropertyKey): Option<Vec4>
  {
    if k in m.failing then None else Some(StoredVector(m, k))
  }

  function GetTexture(m: Material, k: PropertyKey): Option<Option<Texture>>
  {
    if k in m.failing then None else Some(StoredTexture(m, k))
  }

  /** Material.GetTextureScale of texture `t`: the first half of its scale/offset vector,
      (1, 1) when that vector is not stored. */
  function GetTextureScale(m: Material, t: TextureName): Option<Vec2>
  {
    var st := ScaleOffsetKey(t);
    if TextureKey(t) in m.failing then None
    else if st in m.properties && m.properties[st].Vector? then
      Some(Vec2(m.properties[st].vector.x, m.properties[st].vector.y))
    else Some(One2)
  }

  /** Material.GetTextureOffset of texture `t`: the second half of its scale/offset
      vector, (0, 0) when that vector is not stored. */
  function GetTextureOffset(m: Material, t: TextureName): Option<Vec2>
  {
    var st := ScaleOffsetKey(t);
    if TextureKey(t) in m.failing then None
    else if st in m.properties && m.properties[st].Vector? then
      Some(Vec2(m.properties[st].vector.z, m.properties[st].vector.w))
    else Some(Zero2)
  }

  /** Material.FindPass: the index of the first pass with that name, or -1. */
  function FindPass(m: Material, name: string): (i: int)
    ensures -1 <= i < |m.passNames|
    ensures i >= 0 ==> m.passNames[i] == name
    ensures i == -1 <==> name !in m.passNames
  {
    if name in m.passNames then IndexOf(m.passNames, name) else -1
  }

  /** A compute shader: its kernel names in kernel-index order. */
  datatype ComputeShader = ComputeShader(kernelNames: seq<string>)

  predicate HasKernel(cs: ComputeShader, name: string)
  {
    name in cs.kernelNames
  }

  /** ComputeShader.FindKernel, which the scripts only call once HasKernel holds. */
  function FindKernel(cs: ComputeShader, name: string): (i: nat)
    requires HasKernel(cs, name)
    ensures i < |cs.kernelNames| && cs.kernelNames[i] == name
  {
    IndexOf(cs.kernelNames, name)
  }

  function IndexOf(names: seq<string>, name: string): (i: nat)
    requires name in names
    ensures i < |names| && names[i] == name
    ensures name !in names[..i]
  {
    if names[0] == name then 0
    else
      assert names == [names[0]] + names[1..];
      1 + IndexOf(names[1..], name)
  }

  /** A MaterialPropertyBlock: per-renderer property overrides, keyed like material
      properties. */
  class PropertyBlock {
    var values: map<PropertyKey, PropValue>

    constructor()
      ensures values == map[]
    {
      values := map[];
    }

    /** Any of the block's typed setters: it records `v` under `k`. */
    method Set(k: PropertyKey, v: PropValue)
      modifies this
      ensures values == old(values)[k := v]
    {
      values := values[k := v];
    }
  }
}
