# cv-gl core, modelled in Dafny

cv-gl is a sample program. It loads an OBJ mesh, renders it off screen with
OpenGL, and composites the rendering over a camera frame captured with
OpenCV. Almost all of it is calls into OpenCV, OpenGL/GLEW and tinyobjloader.
Three pieces of self-contained logic remain, and this project models them.

- **Mesh de-indexing in `cvgl::loadModel`** (`mesh.dfy`, module `ObjMesh`).
  The parser's output is an input value (`ParseResult`). It holds the flat
  attribute arrays and, per shape, the face arities and the corner index
  records. A failed parse yields `Terminated` after the diagnostic lines.
  A successful parse walks shapes, then faces, then corners, with a running
  `index_offset`. It gathers position, normal and texture-coordinate
  buffers, and derives `has_normal`, `has_texcoord` and the vertex count
  `sz`. The three nested loops are the methods `PushFace`, `FlattenShape` and
  `Flatten`. They are proved equal to a loop-free reference: `Gather` over
  `AllCorners`.
- **Camera-convention conversions** (`camera.dfy`, module `CameraConvert`,
  over `matrix.dfy`, module `Glm`). `glm::mat4` is sixteen reals stored
  column-major. Entry (row r, column c) is `data[4c + r]`. glm's
  sixteen-scalar constructor fills that storage in order, and `transpose` and
  the matrix product are written out. A `cv::Mat` is a sequence of rows read
  with `at(r, c)`.
- **The `Timer` stopwatch** (`timer.dfy`, module `Stopwatch`). A `running`
  flag and two clock readings. `start`, `delta_time` and `end` are
  state-in/state-out functions. The clock reading `now` is a parameter, in
  integer ticks.

The clock, the OBJ parser, OpenGL, OpenCV and the error stream are not
called. The parser result and the clock readings are parameters. The lines
written to the error stream are returned as a sequence of strings.

Normals and texture coordinates are gathered when the parser's flat
`normals` or `texcoords` array is non-empty. Whether any individual face
carries them is not consulted (cv-gl.cpp:52, 59).

## Model

| member | source | states |
|---|---|---|
| ObjMesh.LoadModel | cv-gl.cpp:6-35 | A failed parse, and only a failed parse, yields `Terminated`. The diagnostic lines are exactly: the warning if non-empty, then the error if non-empty, then, on a failed parse only, the failure line naming the path. An empty warning or error is never logged and nothing else is. A successful parse yields the loop-free reference outcome. In it, `sz` is the number of gathered positions, and each flag is set exactly when its buffer is non-empty. |
| ObjMesh.ModelOf | cv-gl.cpp:72-80 | The record `loadModel` returns: `has_normal` and `has_texcoord` start false and are set exactly when the normal or texture-coordinate buffer is non-empty, and `sz` is the number of positions (cv-gl.cpp:113). `LoadModel`'s step-by-step updates of a default record are proved to produce it. |
| ObjMesh.Flatten | cv-gl.cpp:37-68 | The shape loop pushes every shape's corners in shape order. Under in-range reads, the resulting buffers equal the reference gathering of all corners. |
| ObjMesh.FlattenShape | cv-gl.cpp:38-67 | For one shape, `index_offset` starts at 0 and grows by each face's arity. After f faces the loop has appended exactly the corners of those f faces (`FacesUpTo`), and at the end exactly that shape's corners, to the buffers built so far. |
| ObjMesh.PushFace | cv-gl.cpp:43-65 | The corner loop appends the `fv` corner records that start at the running offset, in order. Each push adds that corner's position, and adds its normal or texture coordinate only when that array is non-empty. |
| ObjMesh.PushCorner | cv-gl.cpp:44-64 | One corner iteration appends the corner's position, appends its normal only when the parser's normals are non-empty, and its texture coordinate only when the parser's texture coordinates are non-empty; otherwise that buffer is unchanged. |
| ObjMesh.GatherPush | cv-gl.cpp:46-64 | One corner-loop iteration extends the buffers for the corners seen so far into the buffers for one more corner. |
| ObjMesh.FaceWalkVisitsCorners | cv-gl.cpp:38-44 | The running offset of face n is the sum of the earlier arities and never passes the shape's `indices`. Walking the faces visits exactly the shape's corner prefix, in order. |
| ObjMesh.FaceCorners | cv-gl.cpp:41-44 | Face f reads exactly `fv` corner records. |
| ObjMesh.AllCorners | cv-gl.cpp:37-50 | The corner sequence has one entry per face corner over every shape, which is the total arity. |
| ObjMesh.AllCornersAppend | cv-gl.cpp:37-40 | Shape-major order: the corners of concatenated shape lists are the corners of the first list followed by those of the second. |
| ObjMesh.AllCornersValid | cv-gl.cpp:44-60 | If every read the loop makes is in range, then every corner in the flattened sequence is valid for the attribute arrays. |
| ObjMesh.LoadedVertices | cv-gl.cpp:44-50 | On success, `sz` is the sum of the face arities over all shapes. The k-th vertex is `vertices[3*vi .. 3*vi+2]` for the k-th corner's `vertex_index`. |
| ObjMesh.LoadedFlags | cv-gl.cpp:52-80 | The normal buffer is empty when the parser has no normals, and otherwise has `sz` entries. `has_normal` holds iff there are normals and at least one corner. The same holds for texture coordinates. |
| ObjMesh.TrianglesGiveThreeVerticesPerFace | cv-gl.cpp:37-50 | An all-triangle mesh loads three vertices per face. With no normals and no texture coordinates, both flags are off. |
| ObjMesh.TriangleTotal | cv-gl.cpp:40-43 | Over triangles only, the total arity is three times the face count. |
| ObjMesh.GatherAppend | cv-gl.cpp:50-63 | The buffers of concatenated corner lists are the concatenations of their buffers, for all three attributes. |
| Glm.FromScalars | cv-gl.cpp:147-152 | glm's sixteen-scalar constructor is column-major: the scalar at argument position 4c + r becomes entry (row r, column c). |
| Glm.Transpose | cv-gl.cpp:135 | `glm::transpose` swaps row and column for every entry. |
| Glm.Mul | cv-gl.cpp:154 | Entry (r, c) of the product is row r of the left factor times column c of the right one. |
| CameraConvert.CvProj2GlProj | cv-gl.cpp:125-136 | With far = 100 and near = 0.01, read by (row, column): (0,0) = 2fx/w, (0,2) = 1 - 2cx/w, (1,1) = 2fy/h, (1,2) = -1 + 2cy/h, (2,2) = (-far-near)/(far-near), (2,3) = -2 far near/(far-near), (3,2) = -1. Every other entry is 0. |
| CameraConvert.SampleIntrinsics | cv-gl.cpp:129-130 | For fx = fy = 480, cx = 320, cy = 240 on a 320x240 viewport, entry (0,0) is 3 and entry (1,1) is 4. |
| CameraConvert.RebuildGlRT | cv-gl.cpp:147-152 | The rebuilt `glRT` has exactly the input's (row, column) entries. |
| CameraConvert.CvRT2GlRT | cv-gl.cpp:138-155 | The result is the input with rows 1 and 2 negated and rows 0 and 3 unchanged. |
| CameraConvert.ConvertCV2GLIsDiagonal | cv-gl.cpp:140-145 | `convertCV2GL` is diag(1, -1, -1, 1): entry (r, r) is the row's sign and every off-diagonal entry is 0. |
| CameraConvert.FlipRows | cv-gl.cpp:140-145 | Left-multiplying by `convertCV2GL` scales row r by -1 for r = 1, 2 and by 1 otherwise. |
| CameraConvert.IdentityPoseGivesBasisFlip | cv-gl.cpp:140-154 | On the identity input, the result is the basis flip `convertCV2GL`. |
| CameraConvert.FlipIsInvolution | cv-gl.cpp:140-145 | The basis flip squared is the identity, so flipping a converted view again recovers the input. |
| CameraConvert.ProjectionMatchesPinhole | cv-gl.cpp:125-155 | Take a point at depth z > 0 in OpenCV's camera frame. Flip it into OpenGL's frame and project it. Clip w is z. Normalized x is 2u/w - 1 and normalized y is 1 - 2v/h, where (u, v) is the point's OpenCV pinhole pixel. The point is inside the depth range iff near <= z <= far. |
| CameraConvert.DepthRange | cv-gl.cpp:126-131 | The projection's depth row keeps a point of depth z > 0 inside [-z, z] exactly when near <= z <= far. |
| Stopwatch.FreshTimer | utilities.hpp:51-54 | A default-constructed timer is stopped with both time points at the epoch. `end` on it returns -1 and changes nothing, `delta_time` returns the time since the epoch, and `start` sets both time points to now. |
| Stopwatch.Start | utilities.hpp:27-32 | While running, `start` changes nothing. Otherwise it sets `running`, with `current` equal to `begin`, both at now. |
| Stopwatch.StartIdempotent | utilities.hpp:27-31 | A second `start` keeps the time points of the first, whenever it comes. |
| Stopwatch.DeltaTime | utilities.hpp:34-39 | Returns now minus `current` and moves `current` to now. `begin` and `running` are unchanged. |
| Stopwatch.End | utilities.hpp:41-48 | While stopped, returns the sentinel -1 and changes nothing. While running, it stops the timer and returns now minus `begin`. |
| Stopwatch.EndTwiceGivesSentinel | utilities.hpp:41-43 | After one `end`, a second `end` returns -1 and changes nothing. |
| Stopwatch.EndMeasuresFromStart | utilities.hpp:27-47 | `end` after `start` returns the time since that `start`, whatever `delta_time` calls came between. |
| Stopwatch.DeltasKeepStart | utilities.hpp:34-39 | A run of `delta_time` calls keeps `begin` and `running`, and leaves `current` at the last reading. |
| Stopwatch.DeltasTelescope | utilities.hpp:34-39 | The `delta_time` results of a run sum to the last reading minus the starting `current`. |
| Stopwatch.ReadingsNonNegative | utilities.hpp:34-47 | Start from a consistent timer (begin <= current <= clock) under a monotone clock. Every `delta_time` result is non-negative, and every `end` result is non-negative or the sentinel. |
| Stopwatch.FreshTimerReadingsNonNegative | utilities.hpp:25-55 | The same holds for a freshly constructed timer, with time points at the epoch, under a monotone clock that starts at the epoch or later. |

## Left out

- GPU work in `loadModel` (cv-gl.cpp:70-71, 82-120) is left out: generating the vertex array and buffers, uploading the buffers, and enabling or disabling attribute pointers are all foreign OpenGL calls. The texture-coordinate upload reads `vertices` with `vec2` sizing, and only when there are no normals (cv-gl.cpp:103-106). It is not modelled, because the upload is not modelled.
- The tinyobj parser (cv-gl.cpp:20-22) is an external library. Its result, the `ParseResult` value, is an input.
- Out-of-range attribute indices are left out. A corner without a normal has index -1 while `normals` is non-empty, and the read is undefined behaviour. `ReadsInBounds` therefore requires every read the loop makes to be in range, and only when the parse succeeded.
- Process termination (`std::terminate`) is the `Terminated` outcome. Stream flushing and the exact stream formatting (`std::endl`) are not modelled.
- ObjMesh.LoadModel: the integer widths are not modelled. These are the `int` of `index_offset`, the `int` products `3 * idx.vertex_index`, and `size_t sz`. Models as large as the overflow needs are out of scope.
- CameraConvert.CvProj2GlProj: the model requires w and h to be non-zero, because real division by zero has no value. The source's float division would give infinities or NaN instead.
- Floating-point rounding is left out. The conversions use exact reals, so `0.01f` is taken as exactly 0.01.
- CameraConvert.CvRT2GlRT: it assumes the `cv::Mat` holds floats and is at least 4x4. `at<float>` on any other matrix is undefined.
- Stopwatch.DeltaTime: durations are integer clock ticks, not `std::chrono::duration<float>` seconds. The sentinel is the tick value -1.
- The OpenGL wrappers in cv-gl.hpp (`initGL`, `compileShader`, `loadShader`, `Shader`, `FBO`) are left out. They are library calls, each followed by a status check and an abort.
- main.cpp is left out: its window, camera capture and display calls are input/output and UI.
- `read_all_from_file` (utilities.hpp:10-23) is left out because it is file input.
- cv-cpp.hpp and common.hpp are left out: they hold iterator shims, includes and type aliases, with no behaviour to model.
