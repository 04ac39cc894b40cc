# Dragon GL mesh attributes and scene logic, in Dafny

This project models the part of the Dragon GL renderer that does more than
call OpenGL:

- **Per-face geometry** (`face_geometry.dfy`).
  - The face normal: the normalised cross product of a triangle's two edges.
  - The tangent: the solution of the 2×2 system made by the UV deltas.
- **The face pass `ProcessFacets`** (`facets.dfy`).
  - One loop over the faces fills the table of face normals and tangents.
  - The same loop appends each face's ordinal to the list of each of its three vertices.
- **`CreateTriangles`** (`triangles.dfy`).
  - It emits three vertex records per face.
  - Each record's normal and tangent are averaged over the faces around its vertex.
  - In flat and wireframe mode the normal is the face's own instead.
- **The shader path selection** (`shader_paths.dfy`).
- **The small logic of the scene code** (`scene.dfy`):
  - the command-line parser;
  - the scene state changed by the scroll, key and resize callbacks;
  - the 4-byte-aligned row stride of the screenshot buffer;
  - the light position table;
  - the default render mode.

`wrappers.dfy`, `vectors.dfy` and `attributes.dfy` hold the shared types:
`Option`/`Result`, the vector algebra, and the shading option, model choice
and vertex record.

Modelling choices:

- **Reals, not floats.** Coordinates are exact reals.
- **Normalisation.** Eigen's `normalized()` has no definition here. It is a
  parameter `norm: Vec3 -> Vec3`, and lemmas that need a property of it
  take that property as a precondition (`Odd(norm)`).
- **Non-finite tangents.** Where the UV determinant is 0, the source divides
  by zero and gets an infinite or NaN tangent. That value is `None`, and
  sums and averages keep it `None`, as IEEE arithmetic keeps NaN. A mesh
  without UV data therefore has no finite tangent, which matches the
  source's comment that the tangent is then "undefined".
- **Imperative code stays imperative.**
  - `ProcessFacets` fills an array of face records and an array of
    neighbour lists.
  - `CreateTriangles` and its inner summing loops are `while` loops.
  - `ParseArgs` assigns its locals step by step.
  - `SceneGlobals` is a class whose callbacks update its fields.
- **Specified against functions.** Each method is proved equal to a
  specification function: `FaceTable`, `Incident` or `Corner`. The
  properties are proved about those functions.
- **Shader directories.** The three directories are fixed by the build
  system, so they are a `ShaderDirs` parameter.
- **Key events.** A key event is taken whatever its action. A press and its
  release therefore each turn the model by one tick, as in the source.

## Model

| member | source | states |
|---|---|---|
| FaceGeometry.FaceCross | src/load-utils/load_utils.cpp:70 | the unnormalised face normal (b−a)×(c−a) is orthogonal to both edges |
| FaceGeometry.ComputeTriangleNormal | src/load-utils/load_utils.cpp:67-73 | the face normal is the same whichever corner the two edges are drawn from, as long as the winding a, b, c is kept |
| FaceGeometry.TriangleNormalPerpendicular | src/load-utils/load_utils.cpp:67-73 | when normalising only rescales its argument, the face normal is perpendicular to both edges of the face |
| FaceGeometry.FaceCrossWinding | src/load-utils/load_utils.cpp:70 | swapping b and c negates the cross product |
| FaceGeometry.TriangleNormalWinding | src/load-utils/load_utils.cpp:67-73 | for an odd normalisation, reversing the winding negates the face normal |
| FaceGeometry.TranslationInvariance | src/load-utils/load_utils.cpp:46-73 | moving all three corners by one offset changes neither the cross product, nor the face normal, nor the tangent |
| FaceGeometry.ComputeTangent | src/load-utils/load_utils.cpp:46-65 | the tangent is non-finite exactly when the UV determinant Δu1·Δv2 − Δu2·Δv1 is 0 |
| FaceGeometry.TangentEquation | src/load-utils/load_utils.cpp:51-62 | a finite tangent satisfies det·tangent = Δv2·e1 − Δv1·e2 |
| FaceGeometry.TangentSolvesSystem | src/load-utils/load_utils.cpp:51-62 | the tangent, with the matching bitangent, solves e1 = Δu1·T + Δv1·B and e2 = Δu2·T + Δv2·B |
| FaceGeometry.TangentInFacePlane | src/load-utils/load_utils.cpp:51-70 | a finite tangent is orthogonal to the face's cross product, so it lies in the face's plane |
| FaceGeometry.TangentUvShiftInvariance | src/load-utils/load_utils.cpp:51-56 | shifting all three UVs by one offset leaves the tangent unchanged |
| FaceGeometry.ZeroUvTangentUndefined | src/load-utils/load_utils.cpp:113-126 | with all UVs (0, 0), as when the mesh has none, the tangent is non-finite |
| Facets.FaceTable | src/load-utils/load_utils.cpp:99-133 | one table entry per face, entry i being face i's normal and tangent |
| Facets.ProcessFace | src/load-utils/load_utils.cpp:105-133 | the loop body stores face i's normal and tangent, with UVs (0, 0) when the mesh has none |
| Facets.AppendToCorners | src/load-utils/load_utils.cpp:135-137 | the three push_backs append i to the lists of a, b and c, in that order, and change no other list |
| Facets.ProcessFacets | src/load-utils/load_utils.cpp:95-140 | the returned table is FaceTable, and vertex v's list is Incident(facets, v), for every vertex |
| Facets.IncidentLastFace | src/load-utils/load_utils.cpp:135-137 | taking one more face adds its ordinal to v's list once per corner of that face at v, and adds nothing else |
| Facets.IncidentMultiplicity | src/load-utils/load_utils.cpp:135-137 | face x appears in v's list exactly as many times as v is a corner of x |
| Facets.IncidentMembership | src/load-utils/load_utils.cpp:135-137 | face x is in v's list if and only if v is one of x's corners |
| Facets.IncidentSorted | src/load-utils/load_utils.cpp:103-137 | every list holds valid face ordinals in non-decreasing order |
| Facets.UnreferencedVertexEmpty | src/load-utils/load_utils.cpp:100 | a vertex that no face references keeps an empty list |
| Facets.OwnFaceIncident | src/load-utils/load_utils.cpp:135-137 | each corner's vertex lists the corner's own face, so no list consulted by CreateTriangles is empty |
| Facets.TotalIncidenceIsThreePerFace | src/load-utils/load_utils.cpp:100-138 | when all indices are valid, the lists together hold exactly 3 entries per face |
| Triangles.SumNeighbours | src/load-utils/load_utils.cpp:179-191 | the inner loop's running sums are the sums of the listed faces' normals and tangents |
| Triangles.AverageAround | src/load-utils/load_utils.cpp:179-200 | a vertex's normal and tangent are the normalised means over its list |
| Triangles.CreateTriangles | src/load-utils/load_utils.cpp:142-242 | the output holds 3 records per face, and record j is Corner(j): corner j % 3 of face j / 3 |
| Triangles.EmitFace | src/load-utils/load_utils.cpp:161-234 | one iteration builds corners a, b and c of face i exactly as FaceCorner defines them; without UV data the carried UV variables stay (0, 0) |
| Triangles.CornerPosition | src/load-utils/load_utils.cpp:206-238 | record 3i+k has the position of corner k of face i, in the stored a, b, c order |
| Triangles.FacetedCornerNormal | src/load-utils/load_utils.cpp:211-219 | in flat and wireframe mode all three records of face i carry face i's own normal |
| Triangles.SmoothCornersAgree | src/load-utils/load_utils.cpp:179-219 | in per-vertex and normal-mapping mode, all records of one vertex are identical, whichever face they come from |
| Triangles.ShadingOnlySelectsNormal | src/load-utils/load_utils.cpp:198-234 | position, tangent and UV do not depend on the shading option; the normal depends only on whether the face normal is used |
| Triangles.CoplanarSmoothNormal | src/load-utils/load_utils.cpp:179-196 | faces that share one normal n average to norm(n) |
| Triangles.FlatNeighbourhoodNormal | src/load-utils/load_utils.cpp:179-219 | a vertex whose surrounding faces all have normal n gets norm(n) in smooth modes |
| Triangles.SumTangentsFinite | src/load-utils/load_utils.cpp:179-200 | the summed tangent is finite if and only if every listed face's tangent is |
| Triangles.PlanarCornerKeepsFaceNormal | src/load-utils/load_utils.cpp:179-219 | when normalising is idempotent, a vertex whose faces all share face i's normal gets exactly that normal, in every shading mode |
| Triangles.NoUvCorner | src/load-utils/load_utils.cpp:147-234 | without UV data every record has UV (0, 0) and a non-finite tangent |
| ShaderPaths.VertexShaderPath | src/load-utils/load_utils.cpp:18-30 | the path is the option's directory followed by "/vertex.glsl" |
| ShaderPaths.FragmentShaderPath | src/load-utils/load_utils.cpp:32-44 | the path is the option's directory followed by "/fragment.glsl" |
| ShaderPaths.DirectoryRecovered | src/load-utils/load_utils.cpp:18-44 | stripping the file name from either path gives back the option's directory |
| ShaderPaths.WireframeSharesFlatShaders | src/load-utils/load_utils.cpp:26-42 | wireframe mode uses the flat shaders |
| ShaderPaths.VertexAndFragmentDiffer | src/load-utils/load_utils.cpp:18-44 | no vertex shader path equals a fragment shader path |
| ShaderPaths.SameShadersIff | src/load-utils/load_utils.cpp:18-44 | with distinct directories, two options share shaders exactly when they are equal or are flat and wireframe |
| Scene.ParseArgs | src/pipeline/scene.cpp:557-602 | defaults with no argument; the model word chosen; argv[2] read only when argc is 3; unknown words fail, the model's first; never both a screenshot and a shading option |
| Scene.ModelArgRoundTrip | src/pipeline/scene.cpp:570-576 | each model is named by exactly one command-line word |
| Scene.ExtraNamedRange | src/pipeline/scene.cpp:585-590 | the second word asks for a screenshot exactly when it is "image", and any option it names is flat or wireframe |
| Scene.RenderMode | src/main.cpp:13-20 | an option given on the command line wins; otherwise normal mapping exactly for the OBJ dragon, per-vertex shading for the OFF meshes |
| Scene.NormalMappingOnlyForObj | src/main.cpp:13-20 | normal mapping is chosen only for the OBJ dragon |
| Scene.ClampFov | src/pipeline/scene.cpp:20-25 | the field of view ends in [10, 60], and a value already inside is kept |
| Scene.ClampFovMonotone | src/pipeline/scene.cpp:18-25 | clamping keeps the order of two values and is idempotent |
| Scene.ArrowKeysRotate | src/pipeline/scene.cpp:50-71 | a key changes the rotation exactly when it is an arrow key; opposite arrows cancel; Escape does not rotate |
| Scene.ToUnsigned | src/pipeline/scene.cpp:35-36 | the int-to-unsigned conversion keeps non-negative sizes and wraps negative ones by 2^32 |
| Scene.SceneGlobals.constructor | src/pipeline/scene.h:100-108 | 1000×1000, no rotation, 45° field of view, not dirty |
| Scene.SceneGlobals.Scroll | src/pipeline/scene.cpp:13-28 | the field of view becomes the clamped fov − yoffset·0.09, always in [10, 60]; the scene is dirty; nothing else changes |
| Scene.SceneGlobals.Input | src/pipeline/scene.cpp:44-72 | keeps the field of view in [10, 60]; Escape asks to close; LEFT/RIGHT add ±1.35 to rotate_y, UP/DOWN ∓1.35 to rotate_x; dirty is set exactly by arrow keys; size and fov unchanged |
| Scene.SceneGlobals.Resize | src/pipeline/scene.cpp:30-42 | keeps the field of view in [10, 60]; the new width and height are stored (exactly, when non-negative); the scene is dirty; rotations and fov unchanged |
| Scene.CRem | src/pipeline/scene.cpp:541 | C's `%` truncates: the remainder has the dividend's sign and is smaller than the divisor |
| Scene.CRemQuotient | src/pipeline/scene.cpp:541 | CRem is the remainder of C's division: a equals the quotient rounded toward zero times b, plus CRem(a, b) |
| Scene.RowStride | src/pipeline/scene.cpp:538-541 | the stride is a multiple of 4, and for a non-negative width 3·width ≤ stride < 3·width + 4 |
| Scene.RowStrideMinimal | src/pipeline/scene.cpp:538-541 | no smaller multiple of 4 holds a row |
| Scene.BufferSize | src/pipeline/scene.cpp:543 | the buffer length is a multiple of 4 |
| Scene.BufferHoldsImage | src/pipeline/scene.cpp:538-549 | the buffer holds all 3·width·height pixel bytes, with less than 4 bytes of padding per row |
| Scene.LightPosition | src/pipeline/scene.cpp:79-91 | the light is at (0, 0, z, 1): z is 1.85 for the OBJ dragon, 2.15 for the OFF dragon and 2.0 otherwise, between the origin and the eye at z = 3 |

## Left out

- Windowing, the GL context and GPU resources are not modelled. These are foreign calls with no statable semantics here:
  - window creation and `glViewport`;
  - uniform buffers and vertex buffers;
  - shader compilation and linking;
  - texture loading;
  - `glReadPixels` and the screenshot write.
- The GLM matrix builders (world, view, perspective and normal matrices) are not modelled. They are thin wrappers over library routines that are not available here.
- Mesh and image file reading, and the file-existence check, are I/O. The model starts from the parsed vertex, face and UV rows.
- The render loop of src/main.cpp is not modelled. Only its default-render-mode rule is.
- Floating-point rounding is not modelled. Floats and doubles are exact reals, so the constants 1.35f and 0.09 are exact too.
- Eigen's `normalized()` is an opaque parameter. Its behaviour on the zero vector is not modelled: Eigen returns the vector unchanged there.
- The `volatile` qualifier of the dirty flag, and any concurrency between the callbacks and the render loop, are not modelled.
- The source sizes its face table and neighbour array by `size()`, which is rows × columns. The model sizes them by row count. The extra entries are never read.
- The UV rows are taken as 2-vectors, the (u, v) pair the source reads. The source assigns each UV row to a fixed-size 3-vector (src/load-utils/load_utils.cpp:114-121 and 147-149, 226-229), and only its first two entries are used. When the UV matrix has two columns, as for `vt u v` lines, that assignment is a size mismatch. With Eigen's assertions enabled (src/load-utils/load_utils.h:4 leaves `EIGEN_NO_DEBUG` commented out) it aborts; with them disabled it reads past the end of the row. The model does not capture either behaviour: it reads the first two entries of every row.
- The source discards the OBJ face-texture indices and looks up UV rows by vertex index. The model does the same.
- ShaderPaths.VertexShaderPath: the final `return ""` of the source cannot be reached with the four shading options, so the model has no such case.
- ShaderPaths.FragmentShaderPath: the same holds for its `return ""`.
- Scene.RowStride: `3·width` and `stride·height` are computed in the source's 32-bit `GLsizei` without an overflow check. The model computes them unbounded, so it is exact only while they fit.
- Scene.SceneGlobals.Input: the scancode, action and modifier arguments are ignored, as in the source. Closing the window is returned as a flag instead of calling GLFW.
- Scene.SceneGlobals.Scroll: a NaN or infinite scroll offset is not modelled.
