# Snow rendering core, modelled in Dafny

This project models the logic at the core of a Unity HDRP snow-rendering plugin. It covers:

- **The depth-bake custom pass** (`SnowDepthBakeCustomPass`). This includes:
  - the snow height ranges read from the template material;
  - the per-renderer layer-mask and material texture mappings;
  - the texture sizing and down-sampling bookkeeping;
  - the blurred-gradient maximum and the Laplacian blur schedule;
  - the feature flags;
  - the once-per-Setup ground bake and height encoding;
  - the order in which Execute records full-screen passes and compute-kernel dispatches.
- **The shader-pass and compute-kernel id lookups** (`ShaderPassId`, `ComputeShaderKernelId`). Each is a memoising name-to-index lookup with a default fallback.
- **The Halton low-discrepancy generator** that jitters the displacement kernel.
- **The material utilities** (`SnowMaterialUtil`). These are the layer-gated copy of template properties into a property block, and the two validators.
- **The shader property-id tables** (`SnowShaderId`).
- **The height-map mesh generator and the component that builds its mesh.**

The model represents these things as follows:

- **Materials** are maps from property keys to values. Each material also holds the set of keys whose getter throws.
- **Property ids** are a structured key space, one constructor per name family with the layer as a field. `Shader.PropertyToID` is injective within a run, so distinct names give distinct keys.
- **GPU work** is a trace of opaque commands appended to a `CommandBuffer`:
  - a full-screen pass or a blur pair is one command;
  - a compute dispatch is `Dispatch(kernel, index)`.
- **Floating-point values** are reals.
- **C# specifics** are written out where the code depends on them:
  - integer division truncates;
  - the generator's `int` index wraps at 32 bits;
  - `Mathf.RoundToInt` rounds half to even.

The code is organised in these modules:

| module | contents |
|---|---|
| `Common` | vectors and numeric helpers |
| `Engine` | the Unity material, compute-shader and property-block API the code calls |
| `SnowShaderId` | the key space and property names |
| `ShaderPassUtil` | the pass-id and kernel-id lookups |
| `LowDiscrepancySequence` | the Halton generator |
| `SnowMaterialUtil` | the property copy and the validators |
| `HeightmapMeshGenerator` | the mesh generator |
| `HeightmapMeshComponent` | the mesh component |
| `SnowDepthBake` | the pure helpers of the custom pass |
| `SnowDepthBakePass` | the pass object, its Setup and Execute, and the command trace |

Each loop or state change in the source is a method. It is proved against a specification function, and lemmas state what the source promises about that function.

## Model

| member | source | states |
|---|---|---|
| ShaderPassUtil.PassIdOf | Assets/Snow/Scripts/ShaderPassUtil.cs:25-49 | The id a lookup settles on. With a material that has the named pass, it is that pass's index; with no material or no such pass, it is the default. It is never negative when the default is not. |
| ShaderPassUtil.ShaderPassId.constructor | Assets/Snow/Scripts/ShaderPassUtil.cs:18-23 | A new lookup keeps its name, material and default, and is unresolved with cached id -1. |
| ShaderPassUtil.ShaderPassId.GetPassId | Assets/Snow/Scripts/ShaderPassUtil.cs:25-49 | Returns the settled id. A null material leaves the lookup unresolved and returns the default. A material resolves it. Once resolved, the cached id is returned and never changes. |
| ShaderPassUtil.ShaderPassId.AsInt | Assets/Snow/Scripts/ShaderPassUtil.cs:51 | The implicit int conversion has exactly the effect and result of GetPassId. |
| ShaderPassUtil.PassLookupIsIdempotent | Assets/Snow/Scripts/ShaderPassUtil.cs:45-48 | Two successive lookups return the same id, which is the settled one. |
| ShaderPassUtil.KernelIdOf | Assets/Snow/Scripts/ShaderPassUtil.cs:70-98 | The id a kernel lookup settles on. It is FindKernel's index when the shader has the kernel and the default otherwise. It is never negative when the default is not. |
| ShaderPassUtil.ComputeShaderKernelId.constructor | Assets/Snow/Scripts/ShaderPassUtil.cs:63-68 | A new kernel lookup is unresolved, with cached id -1 and HasKernel false. |
| ShaderPassUtil.ComputeShaderKernelId.GetKernelId | Assets/Snow/Scripts/ShaderPassUtil.cs:70-98 | Returns the settled id. It resolves only with a shader. HasKernel becomes exactly "resolved and the shader has the kernel". A resolved id is cached for good. |
| ShaderPassUtil.ComputeShaderKernelId.HasKernelProperty | Assets/Snow/Scripts/ShaderPassUtil.cs:100 | When HasKernel is true, the cached id names the kernel in the shader. Once resolved against a shader that has the kernel, HasKernel is true. |
| ShaderPassUtil.ComputeShaderKernelId.AsInt | Assets/Snow/Scripts/ShaderPassUtil.cs:102 | The implicit int conversion has exactly the effect and result of GetKernelId. |
| LowDiscrepancySequence.GetHaltonValue | Assets/Snow/Scripts/LowDiscrepancySequence.cs:53-65 | The digit loop, with C# truncating `%` and `/`, computes the radical inverse Halton(index, base). A non-positive index gives 0. |
| LowDiscrepancySequence.HaltonInUnitInterval | Assets/Snow/Scripts/LowDiscrepancySequence.cs:10 | For every base of at least 2, each value lies in [0, 1). |
| LowDiscrepancySequence.HaltonRecurrence | Assets/Snow/Scripts/LowDiscrepancySequence.cs:57-63 | Radical-inverse recurrence: `halton(i, b) = (i mod b)/b + halton(i div b, b)/b` for every positive index. |
| LowDiscrepancySequence.HaltonSingleDigit | Assets/Snow/Scripts/LowDiscrepancySequence.cs:57-63 | A one-digit index i < b maps to i/b. |
| LowDiscrepancySequence.LowDiscrepancySequence.Default | Assets/Snow/Scripts/LowDiscrepancySequence.cs:16-23 | The parameterless generator starts at index 0 in bases 3 and 5. |
| LowDiscrepancySequence.LowDiscrepancySequence.constructor | Assets/Snow/Scripts/LowDiscrepancySequence.cs:25-30 | The generator starts at the given index with the given bases. |
| LowDiscrepancySequence.LowDiscrepancySequence.GetNextValue | Assets/Snow/Scripts/LowDiscrepancySequence.cs:32-37 | Returns the base-1 Halton value at the current index and advances the index by exactly one, with 32-bit wrap-around. The bases are unchanged. |
| LowDiscrepancySequence.LowDiscrepancySequence.GetNextValues2 | Assets/Snow/Scripts/LowDiscrepancySequence.cs:39-45 | Returns both bases' Halton values at the same index and advances the index exactly once. |
| LowDiscrepancySequence.DrawValues | Assets/Snow/Scripts/LowDiscrepancySequence.cs:32-37 | n successive draws return the Halton values at the n consecutive indices from the start, and advance the index by n (wrapped). |
| LowDiscrepancySequence.HaltonRunSplits | Assets/Snow/Scripts/LowDiscrepancySequence.cs:32-37 | Drawing n values and then m more yields the same values as drawing n+m at once, across the 32-bit wrap-around too: a generator resumed where a run stopped continues that run. |
| HeightmapMeshGenerator.AddTriangle | Assets/Snow/Scripts/HeightmapMeshGenerator.cs:20-26 | Writes a, b, c at the three slots from the triangle index and leaves every other slot unchanged. It advances the index by 3. |
| HeightmapMeshGenerator.AddCell | Assets/Snow/Scripts/HeightmapMeshGenerator.cs:37-41 | A cell's two triangles occupy the next six slots: (a, a+w, a+w+1) and (a+w+1, a+1, a). Nothing else changes. |
| HeightmapMeshGenerator.WritePoint | Assets/Snow/Scripts/HeightmapMeshGenerator.cs:33-35 | Writing point x of a row extends the written prefix of the vertex and uv arrays by that point's vertex and uv. Earlier entries are kept. |
| HeightmapMeshGenerator.WriteCell | Assets/Snow/Scripts/HeightmapMeshGenerator.cs:37-43 | Writing one more cell extends the row's written triangle prefix by that cell's six indices. |
| HeightmapMeshGenerator.FillRow | Assets/Snow/Scripts/HeightmapMeshGenerator.cs:31-44 | The inner loop appends row y's vertices and uvs, and the cells of row y unless it is the last row. The vertex and triangle counters end just past what was written. |
| HeightmapMeshGenerator.FillNextRow | Assets/Snow/Scripts/HeightmapMeshGenerator.cs:29-45 | One outer iteration carries the row-major invariant, "the arrays' prefixes hold rows 0..y", from y to y+1. |
| HeightmapMeshGenerator.FillGrid | Assets/Snow/Scripts/HeightmapMeshGenerator.cs:29-45 | The nested loops fill the whole vertex, uv and triangle arrays with the grid's rows. The triangle index ends at exactly the triangle array's length, so every slot is written exactly once. |
| HeightmapMeshGenerator.GenerateMesh | Assets/Snow/Scripts/HeightmapMeshGenerator.cs:10-56 | The mesh returned is the grid mesh of the height map, size, height multiplier and division counts. |
| HeightmapMeshGenerator.GridMeshSizes | Assets/Snow/Scripts/HeightmapMeshGenerator.cs:12-16 | For (nx, ny) divisions, there are (nx+1)(ny+1) vertices and uvs and 6·nx·ny triangle indices. |
| HeightmapMeshGenerator.GridMeshPoint | Assets/Snow/Scripts/HeightmapMeshGenerator.cs:28-35 | Vertex y·(nx+1)+x has uv (x/nx, y/ny). Its position is sampled from the height map at that uv. |
| HeightmapMeshGenerator.GridMeshUvInUnitSquare | Assets/Snow/Scripts/HeightmapMeshGenerator.cs:28-35 | Every uv lies in the unit square. |
| HeightmapMeshGenerator.GridMeshCell | Assets/Snow/Scripts/HeightmapMeshGenerator.cs:37-43 | Cell (x, y) sits at triangle slots 6·(y·nx+x) onwards and holds that cell's two triangles around vertex y·(nx+1)+x. |
| HeightmapMeshGenerator.GridMeshIndicesValid | Assets/Snow/Scripts/HeightmapMeshGenerator.cs:37-41 | Every triangle index is a valid vertex index. |
| HeightmapMeshComponent.ClampDivisions | Assets/Snow/Scripts/HeightmapMeshComponent.cs:32-33 | Each division count becomes min(200, count). Counts at most 200 are unchanged. |
| HeightmapMeshComponent.ClampIsIdempotent | Assets/Snow/Scripts/HeightmapMeshComponent.cs:32-33 | Clamping twice equals clamping once. |
| HeightmapMeshComponent.ClampedMeshBound | Assets/Snow/Scripts/HeightmapMeshComponent.cs:30-46 | A mesh built from clamped counts has at most 201×201 vertices. |
| HeightmapMeshComponent.HeightmapMeshComponent.Default | Assets/Snow/Scripts/HeightmapMeshComponent.cs:15-20 | A new component has 10×10 divisions, a 10×10 size, height 1, and no height map or mesh. |
| HeightmapMeshComponent.HeightmapMeshComponent.constructor | Assets/Snow/Scripts/HeightmapMeshComponent.cs:15-20 | A component holds exactly the given serialized fields and mesh. |
| HeightmapMeshComponent.HeightmapMeshComponent.OnValidate | Assets/Snow/Scripts/HeightmapMeshComponent.cs:30-35 | Replaces the division counts by their clamp and changes nothing else. |
| HeightmapMeshComponent.ValidateTwice | Assets/Snow/Scripts/HeightmapMeshComponent.cs:30-35 | Validating twice leaves the counts the first validation produced. |
| HeightmapMeshComponent.HeightmapMeshComponent.UpdateMeshIfNeeded | Assets/Snow/Scripts/HeightmapMeshComponent.cs:37-46 | A mesh is generated and assigned only when none is assigned and a height map is set. Otherwise nothing changes. |
| HeightmapMeshComponent.HeightmapMeshComponent.Awake | Assets/Snow/Scripts/HeightmapMeshComponent.cs:22-28 | Afterwards, a mesh is assigned exactly when a height map is set. It is the grid mesh for the clamped counts, with at most 201×201 vertices. |
| SnowShaderId.NewTextureId | Assets/Snow/Scripts/SnowShaderId.cs:13-17 | Id names the texture. Id_ST names the texture with "_ST" appended, and differs from Id. |
| SnowShaderId.AsIntIsTextureId | Assets/Snow/Scripts/SnowShaderId.cs:19 | Converting a texture id to int yields Id, never Id_ST. |
| SnowShaderId.SnowTextureIdsSound | Assets/Snow/Scripts/SnowShaderId.cs:24-65 | Every entry of the texture table is a declared texture: the layer mask, DetailMap for layers 0-3, or one of nine per-layer kinds for layers 1-3. |
| SnowShaderId.SnowTextureIdsComplete | Assets/Snow/Scripts/SnowShaderId.cs:24-65 | Every declared texture is in the table. |
| SnowShaderId.SnowTextureIdsDistinct | Assets/Snow/Scripts/SnowShaderId.cs:24-65 | The table has 32 pairwise distinct entries. |
| SnowShaderId.LayerOf | Assets/Snow/Scripts/SnowShaderId.cs:70-173 | A key belongs to a layer exactly when it is a per-layer property, a per-layer texture or its scale-offset. |
| SnowShaderId.DetailMapKeyword | Assets/Snow/Scripts/SnowShaderId.cs:191-193 | The keyword for layers 1-3 is "_DETAIL_MAP" followed by the layer digit. |
| SnowMaterialUtil.RunCopy | Assets/Snow/Scripts/SnowMaterialUtil.cs:12-23 | Running a sequence of copy statements leaves the property block, and the completion flag, as the copy semantics ApplyOps computes. |
| SnowMaterialUtil.CopySnowLayersProperties | Assets/Snow/Scripts/SnowMaterialUtil.cs:10-197 | The corrected copy: the block ends as the corrected copy program, applied to its old values, leaves it. |
| SnowMaterialUtil.CopySnowLayersPropertiesAsWritten | Assets/Snow/Scripts/SnowMaterialUtil.cs:10-197 | The copy as written: the block ends as the as-written program, whose layer-3 block overrides layer-2 keys, leaves it. |
| SnowMaterialUtil.CompletesIff | Assets/Snow/Scripts/SnowMaterialUtil.cs:12-23 | A copy completes exactly when no template getter it calls throws. |
| SnowMaterialUtil.NullTextureKept | Assets/Snow/Scripts/SnowMaterialUtil.cs:13-20 | A texture statement whose template texture is null leaves the block's entry for that key as it was. |
| SnowMaterialUtil.NullTextureNotCopied | Assets/Snow/Scripts/SnowMaterialUtil.cs:13-20 | A texture that is null in the template is never written by the whole copy. |
| SnowMaterialUtil.LayerGating | Assets/Snow/Scripts/SnowMaterialUtil.cs:26-180 | A key of layer 0, or of a layer k with numLayers ≤ k, is left untouched. So numLayers ≤ 2 touches no layer-2 or layer-3 key. |
| SnowMaterialUtil.LayerPropertyCopied | Assets/Snow/Scripts/SnowMaterialUtil.cs:26-76 | After a completed copy, every non-overridden field of layer k < numLayers (k = 1, 2, 3) holds the template's value. The one exception is a texture that is null in the template. |
| SnowMaterialUtil.DetailOverridesFinal | Assets/Snow/Scripts/SnowMaterialUtil.cs:70-75 | After a completed corrected copy, layer k < numLayers holds the detail overrides, whatever the template held: albedo 0, normal 1, smoothness 0, link 0, UV detail 0, mapping mask (1,0,0,0). |
| SnowMaterialUtil.GlobalsCopied | Assets/Snow/Scripts/SnowMaterialUtil.cs:186-195 | After a completed copy, the ten global blend properties hold the template's values, whatever numLayers is. |
| SnowMaterialUtil.AsWrittenLayer3DetailsFromTemplate | Assets/Snow/Scripts/SnowMaterialUtil.cs:130-180 | With the code as written and numLayers > 3, layer 3's detail albedo and normal scales keep the template's values. LinkDetailsWithBase3 and UVDetail3 are left as they were. |
| SnowMaterialUtil.UntouchedLinkAndUVDetail3 | Assets/Snow/Scripts/SnowMaterialUtil.cs:174-179 | As written, no statement writes LinkDetailsWithBase3 or UVDetail3. |
| SnowMaterialUtil.AsWrittenDetailScaleCounterexample | Assets/Snow/Scripts/SnowMaterialUtil.cs:174-179 | For a template with DetailAlbedoScale3 = 0.5, the as-written copy stores 0.5 while the corrected one stores 0. |
| SnowMaterialUtil.HasAccess | Assets/Snow/Scripts/SnowMaterialUtil.cs:201-265 | A HasX helper is true exactly when the property exists and its getter does not throw. |
| SnowMaterialUtil.EvaluateChecks | Assets/Snow/Scripts/SnowMaterialUtil.cs:267-423 | The `validated &=` accumulation is true exactly when every check in the list holds. |
| SnowMaterialUtil.ValidateSnowLayersProperties | Assets/Snow/Scripts/SnowMaterialUtil.cs:199-424 | True exactly when the template is valid: every property of each layer k < numLayers (k = 1, 2, 3) is readable, `_DETAIL_MAPk` is enabled, and every global property is readable. |
| SnowMaterialUtil.ValidationChecksMeaning | Assets/Snow/Scripts/SnowMaterialUtil.cs:267-423 | The validator's check list holds exactly when the template is valid (both directions). |
| SnowMaterialUtil.ValidatedTemplateCopies | Assets/Snow/Scripts/SnowMaterialUtil.cs:199-424 | Copying from a template the validator accepts always completes: no getter throws. |
| SnowMaterialUtil.PairEqual | Assets/Snow/Scripts/SnowMaterialUtil.cs:429-433 | A pair comparison throws exactly when a getter of either layer's key throws. |
| SnowMaterialUtil.ValidateLayers2And3Equal | Assets/Snow/Scripts/SnowMaterialUtil.cs:426-479 | Returns the in-order conjunction of the listed layer-2 vs layer-3 comparisons, or None if a getter throws. |
| SnowMaterialUtil.CompareInOrder | Assets/Snow/Scripts/SnowMaterialUtil.cs:435-476 | The accumulation over the comparisons equals CompareAll. |
| SnowMaterialUtil.CompareAllMeaning | Assets/Snow/Scripts/SnowMaterialUtil.cs:426-479 | It throws exactly when some compared key's getter throws. Otherwise it is true exactly when every pair is equal. |
| SnowMaterialUtil.CompareAllIgnores | Assets/Snow/Scripts/SnowMaterialUtil.cs:446-460 | Changing a key that no compared pair reads does not change the result. |
| SnowMaterialUtil.HeightRangeNotCompared | Assets/Snow/Scripts/SnowMaterialUtil.cs:446-460 | Layer 3's NormalScale and height-range parameters are excluded: changing them never changes the verdict. |
| SnowDepthBake.HeightRangeFromIds | Assets/Snow/Scripts/SnowDepthBakeCustomPass.cs:601-619 | The range is missing (the getter throws) exactly when a float it reads throws: the parameterisation, then center and amplitude or min and max, then the offset. |
| SnowDepthBake.ParameterizedRange | Assets/Snow/Scripts/SnowDepthBakeCustomPass.cs:604-618 | A parameterised layer spans ((0−c)·a+o, (1−c)·a+o)·0.01, so its width is amplitude·0.01. |
| SnowDepthBake.ExplicitRange | Assets/Snow/Scripts/SnowDepthBakeCustomPass.cs:612-618 | An explicit layer spans ((min+o)·0.01, (max+o)·0.01). |
| SnowDepthBake.ExplicitRangeKeepsOrder | Assets/Snow/Scripts/SnowDepthBakeCustomPass.cs:612-618 | An explicit range with min ≤ max is ordered. |
| SnowDepthBake.ExpandedRange | Assets/Snow/Scripts/SnowDepthBakeCustomPass.cs:621-624 | The result contains both ranges, and each end is one of the inputs' ends. |
| SnowDepthBake.ExpandedRangeCommutes | Assets/Snow/Scripts/SnowDepthBakeCustomPass.cs:621-624 | Expanding is symmetric. |
| SnowDepthBake.HeightRangeReadsOwnLayer | Assets/Snow/Scripts/SnowDepthBakeCustomPass.cs:626-653 | The range of layer i is read from layer i's own properties only. Two materials that agree on which of those keys throw, and on their values, give layer i the same range, whatever their other layers hold. |
| SnowDepthBake.FoldedRangeCovers | Assets/Snow/Scripts/SnowDepthBakeCustomPass.cs:655-684 | Folding from (0,0) gives a range that contains 0 and each folded layer's range. Each end is 0 or some layer's end. |
| SnowDepthBake.TemplateHeightRangeCovers | Assets/Snow/Scripts/SnowDepthBakeCustomPass.cs:655-684 | The template range contains 0 and the range of every layer below min(layerCount, 4). It is exactly spanned by them and 0. |
| SnowDepthBake.TemplateLayerCount | Assets/Snow/Scripts/SnowDepthBakeCustomPass.cs:655-684 | The layer count is the truncated `_LayerCount` float. When that getter throws, the result is ((0,0), 0). A count ≤ 0 gives (0,0). |
| SnowDepthBake.NoLayersFoldsToZero | Assets/Snow/Scripts/SnowDepthBakeCustomPass.cs:662-677 | A non-positive layer count folds nothing, giving (0,0). |
| SnowDepthBake.TopLayer | Assets/Snow/Scripts/SnowDepthBakeCustomPass.cs:362-375 | Layer counts 1-4 select layer count−1. Every other count selects layer 0. |
| SnowDepthBake.TopLayerLookups | Assets/Snow/Scripts/SnowDepthBakeCustomPass.cs:356-417 | The height-map, normal-map and normal-scale lookups all name properties of TopLayer(count). For a 2-, 3- or 4-layer template that passes layer validation, all three are declared and readable without throwing. |
| SnowDepthBake.LayerMaskMapsRendererUv | Assets/Snow/Scripts/SnowDepthBakeCustomPass.cs:686-699 | Offset is the renderer's min as a fraction of the aggregate bounds, and offset+scaling is its max. A renderer uv u maps to the fraction of the point at u across the renderer. |
| SnowDepthBake.LayerMaskOfFullBounds | Assets/Snow/Scripts/SnowDepthBakeCustomPass.cs:686-699 | A renderer equal to the aggregate bounds gets offset (0,0) and scaling (1,1). |
| SnowDepthBake.LayerMaskInsideUnitSquare | Assets/Snow/Scripts/SnowDepthBakeCustomPass.cs:686-699 | A renderer inside the aggregate bounds maps into the unit square. |
| SnowDepthBake.MaterialScaleFacts | Assets/Snow/Scripts/SnowDepthBakeCustomPass.cs:718 | The scale the source divides by is never the zero vector. It can be divided by on both axes exactly when the template scale is zero or has no zero component. |
| SnowDepthBake.DivisorScale | Assets/Snow/Scripts/SnowDepthBakeCustomPass.cs:718-720 | The corrected divisor: never zero on either axis. It equals the source's scale whenever that can be divided by, and keeps every non-zero component of the template scale. |
| SnowDepthBake.MaterialMappingMatchesTemplate | Assets/Snow/Scripts/SnowDepthBakeCustomPass.cs:701-721 | At the renderer's min and max, the new offset and offset+scaling equal the template's texture coordinate k + x·j/R, for every template scale R (R taken per axis from DivisorScale). |
| SnowDepthBake.TextureScaleOffsetVector | Assets/Snow/Scripts/SnowDepthBakeCustomPass.cs:723-734 | Defined for every template scale (with the corrected divisor, see ## Findings). It fails only when the template's own scale and offset are used and that texture's getter throws. Without them, the vector is the mapping from scale (1,1) and offset (0,0). |
| SnowDepthBake.TextureSizeProperties | Assets/Snow/Scripts/SnowDepthBakeCustomPass.cs:884-887 | The longer horizontal side gets exactly the edge size. Each side is its proportional length rounded to within 0.5. For non-negative inputs both lie in [0, edge]. |
| SnowDepthBake.TextureSizeVector | Assets/Snow/Scripts/SnowDepthBakeCustomPass.cs:1308-1311 | The vector is (w, h, 1/w, 1/h): the last two are the reciprocals of the first two. |
| SnowDepthBake.TempTargetFactors | Assets/Snow/Scripts/SnowDepthBakeCustomPass.cs:1409-1422 | There are at least two temporary targets, so the two buffers the blur alternates between exist. Both are downsampled by 2^times, the edge-falloff texture's factor (973). The factors never decrease and none exceeds 2^times. |
| SnowDepthBake.GetBlurredGradientMaximum | Assets/Snow/Scripts/SnowDepthBakeCustomPass.cs:1278-1294 | The nine-tap loop computes the blurred step's gradient maximum BlurredGradientMaximum(r). |
| SnowDepthBake.BlurredGradientMaximumBounds | Assets/Snow/Scripts/SnowDepthBakeCustomPass.cs:1278-1294 | For every radius the maximum lies in [0.13671875, 0.5], so its reciprocal is defined. It is 0.5 at radius 0. |
| SnowDepthBake.BlurScheduleProperties | Assets/Snow/Scripts/SnowDepthBakeCustomPass.cs:1447-1462 | Each blur amount is in (0, 1], and all but the last are 1. The total ends exactly at max(start, target). There are ⌈target − start⌉ steps. |
| SnowDepthBake.FullBlurSchedule | Assets/Snow/Scripts/SnowDepthBakeCustomPass.cs:1447-1462 | From 0 to a target t ≥ 0, the loop runs ⌈t⌉ times and the amounts sum to t. |
| SnowDepthBakePass.MaskHeightUpdatedOnce | Assets/Snow/Scripts/SnowDepthBakeCustomPass.cs:303 | Exactly one mechanism updates the mask height each frame. With a compute shader the compute part runs and no mask-height pass is drawn. Without one there is no compute part and the mask-height pass is drawn. |
| SnowDepthBakePass.LayerMaskReadsFinalHeight | Assets/Snow/Scripts/SnowDepthBakeCustomPass.cs:304 | The frame's layer-mask pass is the variant that reads the final mask height exactly when the frame has a compute part to produce it. |
| SnowDepthBakePass.MotionVectorsBeforeCompute | Assets/Snow/Scripts/SnowDepthBakeCustomPass.cs:305 | Motion vectors are rendered exactly when a compute shader is captured, so a frame with a compute part renders them before it. |
| SnowDepthBakePass.VelocitySimulatedIff | Assets/Snow/Scripts/SnowDepthBakeCustomPass.cs:306 | With dispatchable kernels, each velocity kernel is dispatched in a frame exactly when velocity is requested and a compute shader is captured. |
| SnowDepthBakePass.SweptAreaNeedsMotionVectors | Assets/Snow/Scripts/SnowDepthBakeCustomPass.cs:307 | The swept-area copy is recorded exactly when it is requested and a compute shader is captured. When it is, the motion vectors it reads were rendered earlier in the frame. |
| SnowDepthBakePass.ResolvedKernel | Assets/Snow/Scripts/SnowDepthBakeCustomPass.cs:1100-1111 | A kernel id created against a compute shader resolves to the kernel's index, or to its default. Either way it is non-negative. |
| SnowDepthBakePass.SetupKernelIds | Assets/Snow/Scripts/SnowDepthBakeCustomPass.cs:1100-1111 | Setup's kernel ids are all dispatchable. Without velocity simulation, the three velocity ids keep their previous values. |
| SnowDepthBakePass.SetupKernelIdsValid | Assets/Snow/Scripts/SnowDepthBakeCustomPass.cs:1100-1111 | Every kernel id Setup creates resolves against the shader. |
| SnowDepthBakePass.SetupKernelIdsResolve | Assets/Snow/Scripts/SnowDepthBakeCustomPass.cs:1100-1111 | Each individual kernel resolves against the shader. |
| SnowDepthBakePass.SetupPassIds | Assets/Snow/Scripts/SnowDepthBakeCustomPass.cs:789-816 | The pass ids are built before their materials exist, so every one converts to its default index. |
| SnowDepthBakePass.DispatchComputeDisplacement | Assets/Snow/Scripts/SnowDepthBakeCustomPass.cs:1319-1329 | It dispatches, and reports success, exactly when the kernel index is non-negative. Otherwise it records nothing. |
| SnowDepthBakePass.RecordDownsamples | Assets/Snow/Scripts/SnowDepthBakeCustomPass.cs:1409-1421 | Records one down-sample copy per temporary target. The factor left over is the last target's factor. |
| SnowDepthBakePass.RecordLaplacianBlur | Assets/Snow/Scripts/SnowDepthBakeCustomPass.cs:1447-1462 | The while loop records one blur pair per amount of the blur schedule, in order. |
| SnowDepthBakePass.RecordEdgeFalloff | Assets/Snow/Scripts/SnowDepthBakeCustomPass.cs:1396-1549 | Records the edge-falloff build's passes in the source's order. |
| SnowDepthBakePass.GradientMultiplier | Assets/Snow/Scripts/SnowDepthBakeCustomPass.cs:1615-1616 | The gradient multiplier −1/maximum is finite and lies in [−1/0.13671875, −2]. |
| SnowDepthBakePass.RecordMotion | Assets/Snow/Scripts/SnowDepthBakeCustomPass.cs:1559-1596 | Records the motion-vector render, then ⌈blur radius⌉ dilation pairs. |
| SnowDepthBakePass.RecordIndicatorGradient | Assets/Snow/Scripts/SnowDepthBakeCustomPass.cs:1597-1620 | Records the indicator, a blur pair and the gradient with its multiplier. |
| SnowDepthBakePass.RecordVelocity | Assets/Snow/Scripts/SnowDepthBakeCustomPass.cs:1668-1673 | Records the velocity decode, clear and update dispatches. |
| SnowDepthBakePass.RecordDisplacementPasses | Assets/Snow/Scripts/SnowDepthBakeCustomPass.cs:1675-1679 | Records one (height decode, displacement) pair per iteration. |
| SnowDepthBakePass.RecordComputeTail | Assets/Snow/Scripts/SnowDepthBakeCustomPass.cs:1681-1694 | Records the optional (decode, spread) pair, one minimum kernel and the final decode. |
| SnowDepthBakePass.RecordComputeCommands | Assets/Snow/Scripts/SnowDepthBakeCustomPass.cs:1649-1695 | Records the compute part of a frame. The encoded flag becomes true exactly when it was already true or the encode kernel index is non-negative. |
| SnowDepthBakePass.RecordSweptArea | Assets/Snow/Scripts/SnowDepthBakeCustomPass.cs:1640-1647 | Records the swept-area copy and dispatch only when swept area is approximated. |
| SnowDepthBakePass.RecordRenders | Assets/Snow/Scripts/SnowDepthBakeCustomPass.cs:1553-1638 | Records the height render, the motion part when motion vectors are captured, and the depth blur. |
| SnowDepthBakePass.RecordFrameEnd | Assets/Snow/Scripts/SnowDepthBakeCustomPass.cs:1697-1718 | Records the optional normal gradient, then the mask-height update (only without a compute shader), the layer-mask update and the detail-normal update. |
| SnowDepthBakePass.EncapsulateRenderers | Assets/Snow/Scripts/SnowDepthBakeCustomPass.cs:860-877 | The aggregation loop computes RenderersBounds. |
| SnowDepthBakePass.RenderersBoundsCover | Assets/Snow/Scripts/SnowDepthBakeCustomPass.cs:860-877 | The aggregate is well formed and contains every renderer of non-zero size. It has zero size only if every renderer does. |
| SnowDepthBakePass.EncapsulateGrows | Assets/Snow/Scripts/SnowDepthBakeCustomPass.cs:868-875 | Encapsulating gives well-formed bounds of non-zero size. They contain both inputs and everything the first contained. |
| SnowDepthBakePass.CreateComputeResources | Assets/Snow/Scripts/SnowDepthBakeCustomPass.cs:1038-1111 | With a compute shader: a fresh generator at index 30 in bases 3 and 5 (line 1038), and resolving, dispatchable kernel ids. Without one, nothing new. |
| SnowDepthBakePass.SnowDepthBakeCustomPass.constructor | Assets/Snow/Scripts/SnowDepthBakeCustomPass.cs:80-83 | A new pass has the field initialisers' captured flags, no ids and no generator, and both once-per-Setup flags false. |
| SnowDepthBakePass.ValidateSnowLayers | Assets/Snow/Scripts/SnowDepthBakeCustomPass.cs:736-755 | Completes exactly when no exception escapes: with more than three layers, none of the compared layer-2 and layer-3 keys has a throwing getter. |
| SnowDepthBakePass.SnowDepthBakeCustomPass.Setup | Assets/Snow/Scripts/SnowDepthBakeCustomPass.cs:761-1232 | Each early return is modelled, and so is the exception that escapes the layer validation at line 829, which stops Setup before the renderers are gathered. The pass becomes ready exactly when Setup reaches allocation. When ready: the texture size follows the bounds, both flags are reset, and with a compute shader there is a fresh generator at index 30. |
| SnowDepthBakePass.SnowDepthBakeCustomPass.AllocateTextures | Assets/Snow/Scripts/SnowDepthBakeCustomPass.cs:884-1232 | Sizes the textures, creates the compute resources as the captured flags ask, and resets both flags. |
| SnowDepthBakePass.SnowDepthBakeCustomPass.RecordGroundBake | Assets/Snow/Scripts/SnowDepthBakeCustomPass.cs:1385-1550 | Records the ground bake, and the edge-falloff build when it applies, only if not yet done since Setup. Afterwards the flag is set. |
| SnowDepthBakePass.SnowDepthBakeCustomPass.RecordFrameStart | Assets/Snow/Scripts/SnowDepthBakeCustomPass.cs:1385-1647 | Records the ground bake, the renders and the swept-area part of a frame. |
| SnowDepthBakePass.SnowDepthBakeCustomPass.NextJitter | Assets/Snow/Scripts/SnowDepthBakeCustomPass.cs:1656 | The jitter is the bases-3-and-5 Halton pair at the generator's index. The index advances by one. |
| SnowDepthBakePass.SnowDepthBakeCustomPass.RecordCompute | Assets/Snow/Scripts/SnowDepthBakeCustomPass.cs:1649-1695 | Records the compute part of the frame and advances the jitter index once. The encoding flag is set only when the encode kernel index is non-negative. |
| SnowDepthBakePass.SnowDepthBakeCustomPass.RecordComputePart | Assets/Snow/Scripts/SnowDepthBakeCustomPass.cs:1649-1695 | Records the compute part, and moves the state to the next frame's state apart from the ground-bake flag. |
| SnowDepthBakePass.SnowDepthBakeCustomPass.RecordFrame | Assets/Snow/Scripts/SnowDepthBakeCustomPass.cs:1385-1718 | Records FrameCommands of the old state and moves to NextFrameState. The configuration is unchanged. |
| SnowDepthBakePass.SnowDepthBakeCustomPass.Execute | Assets/Snow/Scripts/SnowDepthBakeCustomPass.cs:1331-1719 | A guarded-out call records nothing and changes nothing. Otherwise it records one frame's commands and sets the ground-bake flag; the encoding flag becomes true only once an encode dispatch succeeds, and the jitter index advances only with a compute shader. |
| SnowDepthBakePass.DispatchOfDispatches | Assets/Snow/Scripts/SnowDepthBakeCustomPass.cs:1319-1329 | A dispatch attempt dispatches its kernel exactly when the index is non-negative. |
| SnowDepthBakePass.VelocityDispatches | Assets/Snow/Scripts/SnowDepthBakeCustomPass.cs:1668-1673 | With dispatchable kernels, velocity dispatches are decode, clear, update, in that order. |
| SnowDepthBakePass.DisplacementDispatches | Assets/Snow/Scripts/SnowDepthBakeCustomPass.cs:1675-1679 | n displacement iterations dispatch exactly n displacement kernels. |
| SnowDepthBakePass.TailDispatches | Assets/Snow/Scripts/SnowDepthBakeCustomPass.cs:1681-1693 | The tail dispatches the spread kernel if enabled. It then dispatches exactly one minimum kernel: the falloff-mask variant when the edge falloff applies. |
| SnowDepthBakePass.ComputeDispatchOrder | Assets/Snow/Scripts/SnowDepthBakeCustomPass.cs:1649-1695 | The compute part dispatches, in order: the pending encode, the velocity kernels, 1+extra displacements (the sum wraps at 32 bits, and a non-positive count gives none), the optional spread, and one minimum. |
| SnowDepthBakePass.EdgeFalloffIsGraphicsOnly | Assets/Snow/Scripts/SnowDepthBakeCustomPass.cs:1396-1549 | The edge-falloff build dispatches no compute kernel and draws no ground bake. |
| SnowDepthBakePass.GroundBakeDispatchesNothing | Assets/Snow/Scripts/SnowDepthBakeCustomPass.cs:1385-1394 | The ground-bake part dispatches no kernel. It draws the ground bake once if it is pending, and otherwise not at all. |
| SnowDepthBakePass.FrameStartDispatches | Assets/Snow/Scripts/SnowDepthBakeCustomPass.cs:1640-1647 | The start of a frame dispatches only the swept-area kernel, and only when swept area is approximated and its index is valid. |
| SnowDepthBakePass.FrameDispatchOrder | Assets/Snow/Scripts/SnowDepthBakeCustomPass.cs:1640-1695 | With a compute shader, a whole frame dispatches exactly: sweep area if requested, then the pending encode, velocity, the displacements, the optional spread and one minimum. |
| SnowDepthBakePass.FrameWithoutComputeShader | Assets/Snow/Scripts/SnowDepthBakeCustomPass.cs:1707-1712 | Without a compute shader: no compute part and no dispatch at all. The mask-height update and the plain layer-mask pass are drawn, and neither the jitter index nor the encoding flag changes. |
| SnowDepthBakePass.FrameComputeRecordsNoGroundBake | Assets/Snow/Scripts/SnowDepthBakeCustomPass.cs:1649-1695 | The compute part never draws the ground bake. |
| SnowDepthBakePass.FrameGroundBakes | Assets/Snow/Scripts/SnowDepthBakeCustomPass.cs:1385-1394 | A frame draws the ground bake exactly once if it is pending, and otherwise not at all. |
| SnowDepthBakePass.AfterFrames | Assets/Snow/Scripts/SnowDepthBakeCustomPass.cs:1385-1394 | After n guarded frames only the two flags and the jitter index have changed. Ground bake is done iff n > 0 or it was already done. Encoding is done iff it was already done or n > 0 with a valid encode kernel. |
| SnowDepthBakePass.GroundBakeOnlyFirst | Assets/Snow/Scripts/SnowDepthBakeCustomPass.cs:1230-1231 | Starting from any state, frame n draws the ground bake exactly when n = 0 and the bake was pending. After Setup resets the flag, that means the first frame only. |
| SnowDepthBakePass.FrameEncodes | Assets/Snow/Scripts/SnowDepthBakeCustomPass.cs:1663-1666 | A frame with a compute shader dispatches the encode kernel once if encoding is pending, and otherwise not at all. |
| SnowDepthBakePass.HeightEncodedOnlyFirst | Assets/Snow/Scripts/SnowDepthBakeCustomPass.cs:1663-1666 | With dispatchable kernels, height encoding is dispatched in the first frame only. |

## Left out

- HDRP and GPU plumbing are opaque commands in the trace or are dropped:
  - culling and renderer lists;
  - view and projection matrices;
  - profiling scopes;
  - the render textures, RTHandles and compute buffers;
  - their formats and release;
  - the material and shader lookups of Setup;
  - the property-block parameters each pass receives.
- The trace records a buffer copy or allocation only where the model tracks its size or its source:
  - the downsample copies into the temporary targets;
  - the Laplacian target's size;
  - the swept-area copy of the motion vectors.
- The edge-falloff build's remaining Blits, between buffers whose sizes are already recorded, are not in the trace (SnowDepthBakeCustomPass.cs lines 1446, 1483, 1498 and 1508).
- The shader and compute-kernel mathematics is out of scope, because it lives in shaders. The frame-time, speed, decay and half-life parameters Execute forwards are not recorded. The jitter is recorded only as its unit-square value.
- Thread-group sizes, and the `CeilToInt` group counts passed with each dispatch, are not recorded. A dispatch is its kernel and index.
- The following are not part of this model:
  - `IsSnowMeshRenderer`: it inspects transforms, mesh data, keywords and material names. Setup instead receives the snow renderers' bounds as a parameter.
  - `Cleanup`.
  - `CameraDepthBakeCustomPass`.
  - `SimpleCircularMovement`.
  - `CustomRenderTextureUpdater`.
- Log messages are not modelled. `ValidateSnowLayers` is modelled only for whether an exception escapes it; its warnings are dropped.
- Floating point is modelled with reals:
  - `Mathf.RoundToInt` is modelled as round-half-to-even;
  - `Mathf.Pow(2, n)` is an exact power of two;
  - float rounding in the Halton sums and in the blur total is not modelled.
- Unity's `Color` and `Vector` equality is approximate. These members compare exactly:
  - `ValidateLayers2And3Equal` and `MaterialScale`;
  - `SnowDepthBakePass.HasZeroSize`, and so `EncapsulateRenderers` and `RenderersBounds`. The size test at SnowDepthBakeCustomPass.cs:868 treats a renderer whose size is below about 1e-5 as empty; the model treats only an exactly zero size as empty.
- SnowDepthBakePass.SnowDepthBakeCustomPass.Setup: it is modelled for a pass that has not yet been set up. The model does not capture setting up again, which would find the materials created by the previous Setup.
- SnowDepthBakePass.SnowDepthBakeCustomPass.Setup: when the renderers' aggregate bounds have zero horizontal extent, the source divides by zero in floating point and goes on. The model stops before allocation, and the pass stays not ready.
- SnowDepthBakePass.SnowDepthBakeCustomPass.Setup: the mask, detail-normal and ground-depth material parameters are not modelled (921-935, 955-956, 1041-1092), and neither is the initial mask-height fill.
- SnowDepthBakePass.SnowDepthBakeCustomPass.Setup: the template getters at SnowDepthBakeCustomPass.cs:921-934 (the top layer's height map, normal map and normal scale, and `_HeightMap1`) are taken not to throw. If one throws in the source, the depth-capture buffer and the baking camera are already assigned (888-892), so Execute's guard admits a pass that has no jitter generator, no kernel ids and no edge-falloff texture, and whose root rotation was not restored. The model does not represent that half-set-up pass. For a template that passes `SnowMaterialUtil.TemplateValid` with two to four layers, the three top-layer keys are readable (`SnowDepthBake.TopLayerLookups`).
- SnowDepthBakePass.SnowDepthBakeCustomPass.AllocateTextures: for the same reason, it always creates the compute resources and resets both flags. In the source, a throwing getter at 921-934 stops Setup before lines 1038-1231.
- The following steps are not tracked by Setup:
  - the property-block copy at 1213-1225 (modelled separately by `SnowMaterialUtil.CopySnowLayersProperties`);
  - the per-renderer scale and offset writes at 1234-1276 (modelled per texture by `SnowDepthBake.TextureScaleOffsetVector` and `SnowDepthBake.LayerMaskMapsRendererUv`).
- SnowDepthBakePass.SnowDepthBakeCustomPass.Execute: `ValidateBakingHDCameraForExecute` always returns true in this class and is dropped from the guard. The null-buffer and null-camera tests are folded into whether Setup completed.
- LowDiscrepancySequence.GetHaltonValue: it requires a non-positive index or a base other than 0 and 1. With base 1 the source loops forever, and with base 0 it divides by zero.
- HeightmapMeshGenerator.GenerateMesh: it requires at least one division on each axis. With zero divisions the source divides by zero in its uv step, and with negative ones it allocates invalid arrays. The array sizes at HeightmapMeshGenerator.cs:14-16 are 32-bit products in the source and unbounded in the model; the component clamps the counts to 200, so they cannot overflow there.
- HeightmapMeshComponent.HeightmapMeshComponent.Awake: inherits the requirement of GenerateMesh: with a height map assigned, the division count must be at least one.
- HeightmapMeshComponent.HeightmapMeshComponent.UpdateMeshIfNeeded: inherits the same requirement of GenerateMesh when it regenerates the mesh.
- HeightmapMeshGenerator.GenerateMesh: the height map is an abstract sample function standing in for `GetPixelBilinear`. `RecalculateNormals` is not modelled.
- SnowDepthBake.LayerMaskOffsetAndScaling: when the aggregate bounds are flat along x or z, the source divides by zero and gets infinite or NaN offsets. The model returns None there and does not model those values.
- SnowDepthBake.TextureSizeVector: it requires non-zero sizes. For a zero size the source produces an infinite reciprocal.
- SnowDepthBake.TextureSizeProperties: it requires a positive longer side, as Setup guarantees in the model.
- SnowMaterialUtil.ValidateLayers2And3Equal: a getter that throws makes the result None. In the source the exception propagates to the caller; `SnowDepthBakePass.ValidateSnowLayers` and Setup model that propagation by stopping Setup.

## Findings

| source | as written | input that shows it | evidently intended | confidence | as-written member | corrected member |
|---|---|---|---|---|---|---|
| Assets/Snow/Scripts/SnowMaterialUtil.cs:174-179 | The numLayers > 3 block ends with the detail overrides of layer 2 (LinkDetailsWithBase2, UVDetail2, UVDetailsMappingMask2, DetailAlbedoScale2, DetailNormalScale2, DetailSmoothnessScale2). So layer 3 keeps its template detail scales, and its link and UV-detail settings are never written. | numLayers = 4 and a template whose DetailAlbedoScale3 is 0.5: the block ends with DetailAlbedoScale3 = 0.5 instead of 0 | the same overrides applied to layer 3's keys, as the layer-1 and layer-2 blocks do for their own layers | high (not executed) | SnowMaterialUtil.AsWrittenDetailScaleCounterexample | SnowMaterialUtil.DetailOverridesFinal |
| Assets/Snow/Scripts/SnowDepthBakeCustomPass.cs:718-720 | Only the zero vector is replaced by (1,1). A template scale with one zero component is kept, and both divisions at 719-720 then divide that axis by zero. | template scale (0, 2) | each zero axis treated as unset, as the comment at 718 says the guard is there to avoid division by zero | medium (not executed) | SnowDepthBake.OneZeroAxisScaleCounterexample | SnowDepthBake.DivisorScale |
