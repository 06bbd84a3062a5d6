/** Memoising lookups of a shader pass index by pass name and of a compute kernel index
    by kernel name, each falling back to a default index when the name is not found. */
module ShaderPassUtil {

  import opened Common
  import opened Engine

  /** The pass index a lookup of `name` yields: the material's pass of that name when
      the material is present and has one, and the default otherwise. */
  function PassIdOf(material: Option<Material>, name: string, defaultPassId: int): (id: int)
    ensures material.Some? && name in material.value.passNames ==>
              0 <= id < |material.value.passNames| && material.value.passNames[id] == name
    ensures material.None? || name !in material.value.passNames ==> id == defaultPassId
    ensures defaultPassId >= 0 ==> id >= 0
  {
    match material
    case None => defaultPassId
    case Some(m) => if FindPass(m, name) >= 0 then FindPass(m, name) else defaultPassId
  }

  /** The kernel index a lookup of `name` yields: the shader's kernel of that name when
      the shader is present and has one, and the default otherwise. */
  function KernelIdOf(shader: Option<ComputeShader>, name: string, defaultKernelId: int): (id: int)
    ensures shader.Some? && HasKernel(shader.value, name) ==>
              0 <= id < |shader.value.kernelNames| && shader.value.kernelNames[id] == name
    ensures shader.None? || !HasKernel(shader.value, name) ==> id == defaultKernelId
    ensures defaultKernelId >= 0 ==> id >= 0
  {
    if shader.Some? && HasKernel(shader.value, name) then FindKernel(shader.value, name)
    else defaultKernelId
  }

  class ShaderPassId {
    const passName: string
    const material: Option<Material>
    const defaultPassId: int

    var resolved: bool
    var passId: int

    /** A resolved lookup has cached the value the lookup yields. */
    ghost predicate Valid()
      reads this
    {
      resolved ==> material.Some? && passId == PassIdOf(material, passName, defaultPassId)
    }

    constructor(passName: string, material: Option<Material>, defaultPassId: int)
      ensures Valid()
      ensures this.passName == passName && this.material == material
      ensures this.defaultPassId == defaultPassId
      ensures !resolved && passId == -1
    {
      this.passName := passName;
      this.material := material;
      this.defaultPassId := defaultPassId;
      resolved := false;
      passId := -1;
    }

    /** Every call yields the same index. The first call with a material present looks
        the pass up and caches it; without a material nothing is cached. */
    method GetPassId() returns (id: int)
      requires Valid()
      modifies this
      ensures Valid()
      ensures id == PassIdOf(material, passName, defaultPassId)
      ensures resolved == (old(resolved) || material.Some?)
      ensures old(resolved) ==> id == old(passId) && passId == old(passId)
      ensures material.None? ==> !resolved && passId == old(passId) && id == defaultPassId
    {
      if !resolved {
        if material.Some? {
          passId := FindPass(material.value, passName);
          if passId < 0 {
            passId := defaultPassId;
          }
          resolved := true;
          return passId;
        } else {
          return defaultPassId;
        }
      } else {
        return passId;
      }
    }

    /** The implicit int conversion, which is the lookup itself. */
    method AsInt() returns (id: int)
      requires Valid()
      modifies this
      ensures Valid()
      ensures id == PassIdOf(material, passName, defaultPassId)
      ensures resolved == (old(resolved) || material.Some?)
      ensures old(resolved) ==> id == old(passId) && passId == old(passId)
      ensures material.None? ==> !resolved && passId == old(passId)
    {
      id := GetPassId();
    }
  }

  /** Two lookups in a row yield the same index, and the second changes nothing. */
  method PassLookupIsIdempotent(p: ShaderPassId) returns (first: int, second: int)
    requires p.Valid()
    modifies p
    ensures p.Valid()
    ensures first == second == PassIdOf(p.material, p.passName, p.defaultPassId)
  {
    first := p.GetPassId();
    var resolvedAfterFirst, cachedAfterFirst := p.resolved, p.passId;
    second := p.GetPassId();
    assert p.resolved == resolvedAfterFirst && p.passId == cachedAfterFirst;
  }

  class ComputeShaderKernelId {
    const kernelName: string
    const computeShader: Option<ComputeShader>
    const defaultKernelId: int

    var resolved: bool
    var kernelId: int
    var hasKernel: bool

    /** A resolved lookup has cached the value the lookup yields and whether the shader
        reported the kernel; an unresolved one reports no kernel. */
    ghost predicate Valid()
      reads this
    {
      && (resolved ==>
            && computeShader.Some?
            && kernelId == KernelIdOf(computeShader, kernelName, defaultKernelId)
            && hasKernel == HasKernel(computeShader.value, kernelName))
      && (!resolved ==> !hasKernel)
    }

    constructor(kernelName: string, computeShader: Option<ComputeShader>, defaultKernelId: int)
      ensures Valid()
      ensures this.kernelName == kernelName && this.computeShader == computeShader
      ensures this.defaultKernelId == defaultKernelId
      ensures !resolved && kernelId == -1 && !hasKernel
    {
      this.kernelName := kernelName;
      this.computeShader := computeShader;
      this.defaultKernelId := defaultKernelId;
      resolved := false;
      kernelId := -1;
      hasKernel := false;
    }

    /** Every call yields the same index; the first call with a shader present caches it
        together with whether the shader has the kernel. */
    method GetKernelId() returns (id: int)
      requires Valid()
      modifies this
      ensures Valid()
      ensures id == KernelIdOf(computeShader, kernelName, defaultKernelId)
      ensures resolved == (old(resolved) || computeShader.Some?)
      ensures hasKernel == (resolved && HasKernel(computeShader.value, kernelName))
      ensures old(resolved) ==> id == old(kernelId) && kernelId == old(kernelId)
      ensures computeShader.None? ==> !resolved && kernelId == old(kernelId) && id == defaultKernelId
    {
      if !resolved {
        if computeShader.Some? {
          hasKernel := HasKernel(computeShader.value, kernelName);
          if hasKernel {
            kernelId := FindKernel(computeShader.value, kernelName);
          } else {
            kernelId := defaultKernelId;
          }
          resolved := true;
          return kernelId;
        } else {
          return defaultKernelId;
        }
      } else {
        return kernelId;
      }
    }

    /** The HasKernel property. */
    function HasKernelProperty(): (b: bool)
      reads this
      requires Valid()
      ensures b ==> (resolved && computeShader.Some? && 0 <= kernelId < |computeShader.value.kernelNames|
                     && computeShader.value.kernelNames[kernelId] == kernelName)
      ensures resolved && computeShader.Some? && HasKernel(computeShader.value, kernelName) ==> b
    {
      hasKernel
    }

    /** The implicit int conversion, which is the lookup itself. */
    method AsInt() returns (id: int)
      requires Valid()
      modifies this
      ensures Valid()
      ensures id == KernelIdOf(computeShader, kernelName, defaultKernelId)
      ensures resolved == (old(resolved) || computeShader.Some?)
      ensures hasKernel == (resolved && HasKernel(computeShader.value, kernelName))
      ensures old(resolved) ==> id == old(kernelId) && kernelId == old(kernelId)
    {
      id := GetKernelId();
    }
  }
}
