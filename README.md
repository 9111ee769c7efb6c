# Molphene core, modelled in Dafny

Molphene is a molecule viewer written in C++. This project models its core logic and proves properties of it:

- **Application.** `basic_application` keeps the selected molecule display and a container of built representations. It rebuilds the container when the display changes and maps keys and integers onto displays. It tracks click-and-drag state. For ball-and-stick, it picks the atoms that get spheres: the deduplicated, ascending set of bond endpoints.
- **Scene.** `Scene::transform_sphere_attrs` emits one sphere attribute per atom. Each carries a dense index and a texel address in a square colour atlas of side ceil(sqrt(n)).
- **Instanced ball-and-stick drawing.** `ballstick_instancing_representation` has a three-way atom radius policy. Its `render` walks the instance blocks of each bond group: one instanced draw per block, and the last block draws only the remaining instances.
- **Value and state types.**
  - `mat4`: a row-major 4x4 matrix, updated in place.
  - `Camera`: clamped zoom, resolution and projection mode.
  - `rgba`: byte and float colours, with premultiplied byte-to-float conversion.
  - `Sphere`.

Scalars are `real`, so floating-point rounding is not modelled.

The model's shape follows the source:

- **Classes.** Objects whose members the source updates become classes, with `modifies` clauses: `Matrix.Mat4` over a fixed array of sixteen slots, `CameraModel.Camera`, and `Application.BasicApplication`.
- **Loops.** The loops of `transform_sphere_attrs`, of the two `build_*` functions and of `render` become methods with loop invariants.
- **Pure code.** Constructors of value types and pure switches become functions.

Each method is specified by functions of the old state and its inputs. Lemmas over those functions state what the source promises.

Files:

- `vectors.dfy`: `Vec2` and `Vec3`.
- `rgba.dfy`: colours.
- `sphere.dfy`: `Sphere`.
- `molecule.dfy`: atoms and bonds by index.
- `mat4.dfy`: `Mat4` and its specification functions.
- `adjugate.dfy`: the adjugate identity and what follows for `inverse`.
- `camera.dfy`: `Camera`.
- `scene.dfy`: `transform_sphere_attrs`.
- `ballstick_instancing.dfy`: the radius policy and `render`.
- `application.dfy`: `basic_application`.

## Model

| member | source | states |
|---|---|---|
| Matrix.Mat4.Scalar | libs/gfxm/src/gfxm/mat4.hpp:21-24 | `mat4(s)` holds `s` on the diagonal and 0 in the other twelve slots |
| Matrix.DiagonalIsScaledIdentity | libs/gfxm/src/gfxm/mat4.hpp:21-24 | `mat4(s)` is `s` times the identity, and multiplying any matrix by it scales every entry by `s` |
| Matrix.Mat4.Elements | libs/gfxm/src/gfxm/mat4.hpp:26-59 | the sixteen-argument constructor stores its arguments in row-major order |
| Matrix.Mat4.Copy | libs/gfxm/src/gfxm/mat4.hpp:61-105 | the converting constructors copy all sixteen slots into a fresh array |
| Matrix.Mat4.MulAssign | libs/gfxm/src/gfxm/mat4.hpp:107-137 | `*=` leaves the product of the old left operand and the right operand, with every old slot read before any is written, so `a *= a` squares `a` |
| Matrix.ProductAt | libs/gfxm/src/gfxm/mat4.hpp:119-134 | product entry (row, col) is the sum over k of a(row, k) · b(k, col) |
| Matrix.ProductIdentity | libs/gfxm/src/gfxm/mat4.hpp:107-137 | the identity is neutral for the product on both sides |
| Matrix.Mat4.Times | libs/gfxm/src/gfxm/mat4.hpp:139-142 | `operator*` returns the product in a fresh matrix; the left operand is unchanged |
| Matrix.Mat4.ScaleAll | libs/gfxm/src/gfxm/mat4.hpp:144-164 | `*=(s)` multiplies each of the sixteen slots by `s` |
| Matrix.ScaledTwice | libs/gfxm/src/gfxm/mat4.hpp:144-164 | scaling by s then by t is scaling by s · t |
| Matrix.Mat4.TimesScalar | libs/gfxm/src/gfxm/mat4.hpp:166-169 | `operator*(s)` returns the scaled matrix in a fresh object |
| Matrix.Mat4.Set | libs/gfxm/src/gfxm/mat4.hpp:171-249 | setter `mRC(v)` writes slot R·4+C and leaves the other fifteen slots unchanged |
| Matrix.Mat4.Get | libs/gfxm/src/gfxm/mat4.hpp:251-329 | getter `mRC()` reads slot R·4+C |
| Matrix.SlotBijective | libs/gfxm/src/gfxm/mat4.hpp:642-663 | the qvm element index Row·4+Col is a bijection between (row, col) pairs and the sixteen slots |
| Matrix.Mat4.ScaleAxes | libs/gfxm/src/gfxm/mat4.hpp:341-347 | `scale(x, y, z)` leaves `ScaledAxes` of the old value |
| Matrix.ScaledAxesProperties | libs/gfxm/src/gfxm/mat4.hpp:341-347 | `scale(x, y, z)` multiplies slots 0, 5 and 10 by x, y and z and keeps the other 13; on the identity it gives diag(x, y, z, 1) |
| Matrix.Mat4.ScaleUniform | libs/gfxm/src/gfxm/mat4.hpp:331-334 | `scale(s)` is `scale(s, s, s)` |
| Matrix.Mat4.ScaleVec | libs/gfxm/src/gfxm/mat4.hpp:336-339 | `scale(v)` is `scale(v.x, v.y, v.z)` |
| Matrix.Mat4.SetIdentity | libs/gfxm/src/gfxm/mat4.hpp:349-352 | `identity()` leaves the identity matrix |
| Matrix.Mat4.Rotate | libs/gfxm/src/gfxm/mat4.hpp:354-410 | `rotate(a, v)` leaves `Rotated` of the old value; a zero angle leaves it unchanged |
| Matrix.RotatedIsProduct | libs/gfxm/src/gfxm/mat4.hpp:354-410 | `rotate(0, v)` is the identity map; any other angle multiplies on the right by the rotation matrix |
| Matrix.Mat4.Translate | libs/gfxm/src/gfxm/mat4.hpp:412-435 | `translate(x, y, z)` leaves `Translated` of the old value |
| Matrix.TranslatedIsProduct | libs/gfxm/src/gfxm/mat4.hpp:412-435 | `translate` keeps column 3, adds x, y and z times column 3 to columns 0, 1 and 2, and equals multiplying on the right by the translation matrix |
| Matrix.Mat4.TranslateVec | libs/gfxm/src/gfxm/mat4.hpp:437-440 | `translate(v)` is `translate(v.x, v.y, v.z)` |
| Matrix.Mat4.Adjoint | libs/gfxm/src/gfxm/mat4.hpp:537-578 | `adjoint()` replaces the matrix with its adjugate |
| AdjugateProof.AdjugateIdentity | libs/gfxm/src/gfxm/mat4.hpp:537-578 | the matrix times the adjugate `adjoint` computes is the determinant polynomial times the identity |
| Matrix.Mat4.IsInvertible | libs/gfxm/src/gfxm/mat4.hpp:580-583 | `is_invertible()` holds exactly when the determinant polynomial is nonzero |
| Matrix.Mat4.Determinant | libs/gfxm/src/gfxm/mat4.hpp:614-630 | `determinant()`, declared `bool`, is true exactly when the determinant polynomial is nonzero |
| Matrix.InverseAsWritten | libs/gfxm/src/gfxm/mat4.hpp:585-590 | `inverse()` as written yields the adjugate when the determinant is nonzero and the zero matrix otherwise |
| AdjugateProof.InverseAsWrittenCounterexample | libs/gfxm/src/gfxm/mat4.hpp:585-590 | for 2·I, `inverse()` as written yields 8·I instead of 0.5·I; its product with 2·I is not the identity |
| AdjugateProof.InverseAsWrittenAgreement | libs/gfxm/src/gfxm/mat4.hpp:585-590 | `inverse()` as written agrees with the true inverse exactly when the determinant is 0 or 1 |
| AdjugateProof.InverseIsRightInverse | libs/gfxm/src/gfxm/mat4.hpp:585-590 | the matrix times its corrected inverse (the adjugate divided by the determinant) is the identity when the determinant is nonzero; a singular matrix gives the zero matrix |
| Matrix.Mat4.Invert | libs/gfxm/src/gfxm/mat4.hpp:585-590 | `inverse()`, corrected: the matrix becomes its adjugate divided by its determinant, or zero when singular |
| Matrix.Mat4.Transpose | libs/gfxm/src/gfxm/mat4.hpp:592-612 | `transpose()` moves slot r·4+c to c·4+r |
| Matrix.TransposeInvolutive | libs/gfxm/src/gfxm/mat4.hpp:592-612 | transposing moves entry (row, col) to (col, row), and transposing twice restores the matrix |
| CameraModel.Camera.constructor | src/lib/molphene/Camera.hpp:15-31 | the defaults: fov is pi/4, zoom 1, far, near and top 0, width and height 0, both matrices the identity, orthogonal mode |
| CameraModel.Camera.AspectRatio | src/lib/molphene/Camera.hpp:33-37 | `aspect_ratio()` is width/height, and is not finite exactly when the height is 0 |
| CameraModel.Camera.ProjectionMatrixKind | src/lib/molphene/Camera.hpp:55-60 | `projection_matrix()` takes the perspective path exactly when the stored mode is true |
| CameraModel.Camera.ProjectionModeSet | src/lib/molphene/Camera.hpp:62-66 | `projection_mode(b)` stores `b`, returns it and changes nothing else |
| CameraModel.Camera.SetResolution | src/lib/molphene/Camera.hpp:68-72 | `set_resolution(s)` sets width and height to `s` and nothing else; the aspect ratio is then 1, or not finite for 0 |
| CameraModel.Camera.SetResolutionWH | src/lib/molphene/Camera.hpp:74-79 | `set_resolution(w, h)` sets each field and nothing else |
| CameraModel.ZoomedIn | src/lib/molphene/Camera.hpp:87-91 | `zoom_in` gives min(zoom · 1.1, 200 · 1.1), so never more than 220 |
| CameraModel.Camera.ZoomIn | src/lib/molphene/Camera.hpp:87-91 | `zoom_in()` updates only the zoom, to `ZoomedIn` of the old zoom |
| CameraModel.ZoomedOut | src/lib/molphene/Camera.hpp:93-97 | `zoom_out` gives max(zoom / 1.1, 1 / 1.1 / 200), so never less than 1/220 |
| CameraModel.Camera.ZoomOut | src/lib/molphene/Camera.hpp:93-97 | `zoom_out()` updates only the zoom, to `ZoomedOut` of the old zoom |
| CameraModel.ZoomStepsCancel | src/lib/molphene/Camera.hpp:87-97 | inside the range that neither clamp touches, one step in undoes one step out and vice versa |
| CameraModel.ZoomStaysInRange | src/lib/molphene/Camera.hpp:87-97 | every sequence of zoom steps from a zoom within [1/220, 220] stays within it |
| CameraModel.DefaultZoomInRange | src/lib/molphene/Camera.hpp:23 | from the default zoom 1, every sequence of zoom steps stays within [1/220, 220] |
| Rgba.Rgb8 | libs/gfxm/src/gfxm/rgba.hpp:25-28 | `rgba<uint8_t>(r, g, b)` is `(r, g, b, 0xFF)` |
| Rgba.RgbF | libs/gfxm/src/gfxm/rgba.hpp:57-60 | `rgba<float>(r, g, b)` has alpha 1 and the given channels |
| Rgba.Unit | libs/gfxm/src/gfxm/rgba.hpp:50-53 | a byte over 255 lies in [0, 1], and is 0 exactly for 0 and 1 exactly for 255 |
| Rgba.FromBytes | libs/gfxm/src/gfxm/rgba.hpp:47-55 | bytes become premultiplied floats: every component is in [0, 1] and no colour channel exceeds alpha; a = 0 gives all zeros; a = 255 gives each channel c/255 with alpha 1 |
| Rgba.Premultiply | libs/gfxm/src/gfxm/rgba.hpp:50-52 | a channel fraction times alpha lies in [0, alpha], is 0 for alpha 0, and is the fraction itself for alpha 1; dividing by a nonzero alpha gives the fraction back |
| Rgba.PremultiplyInvertible | libs/gfxm/src/gfxm/rgba.hpp:47-55 | with nonzero alpha, un-premultiplying and scaling by 255 recovers every byte |
| Rgba.OpaqueConversion | libs/gfxm/src/gfxm/rgba.hpp:40-45 | converting an opaque byte colour gives the three-float colour of its channel fractions with alpha 1 |
| Shape.DefaultSphere | src/lib/molphene/shape/Sphere.hpp:14-17 | a default sphere has radius 0 and centre (0, 0, 0) |
| Shape.SphereOfRadius | src/lib/molphene/shape/Sphere.hpp:19-22 | `Sphere(r)` has radius r and centre at the origin |
| Shape.SphereAt | src/lib/molphene/shape/Sphere.hpp:24-44 | `Sphere(r, c)` and the converting constructors store exactly r and c |
| Shape.ConstructorsAgree | src/lib/molphene/shape/Sphere.hpp:14-28 | the default sphere is `Sphere(0)`; `Sphere(r)` is `Sphere(r, origin)`; `Sphere(r, c)` equals `Sphere(r)` exactly when c is the origin |
| SceneModel.CeilSqrt | src/lib/molphene/Scene.hpp:97-98 | the atlas side s satisfies s·s ≥ n and (s−1)·(s−1) < n, and is 0 exactly for n = 0 |
| SceneModel.CeilSqrtLeast | src/lib/molphene/Scene.hpp:97-98 | the atlas side is the least side whose square reaches n |
| SceneModel.Texel | src/lib/molphene/Scene.hpp:107-109 | the texel of index i is (i mod s, i div s); its column is below s, and reading it row-major gives i back |
| SceneModel.TexelInRange | src/lib/molphene/Scene.hpp:97-109 | for every index below n, both texel components are below the atlas side |
| SceneModel.TexelInjective | src/lib/molphene/Scene.hpp:107-109 | distinct indices have distinct texels |
| SceneModel.TexCoordInUnitSquare | src/lib/molphene/Scene.hpp:107-109 | stored texture coordinates lie in [0, 1) and tell distinct indices apart |
| SceneModel.FloorOfQuotient | src/lib/molphene/Scene.hpp:108 | `floor(float(i) / s)` is the integer quotient i div s |
| SceneModel.TransformSphereAttrs | src/lib/molphene/Scene.hpp:92-119 | one attribute per atom, in input order. The k-th has index k; a sphere with the representation's radius for the atom's element, centred at the atom's position; the representation's colour for the atom; and texcoord texel(k) / s. No attribute is written for n = 0 |
| BallstickInstancing.AtomRadiusScales | libs/core/src/molphene/ballstick_instancing_representation.cpp:9-20 | `atom_radius` is `rvdw · radius_size` for van der Waals, `rcov · radius_size` for covalent, and `radius_size` for any other kind, whatever the element. It is linear in `radius_size` and nonnegative for nonnegative data |
| BallstickInstancing.RenderGroup | libs/core/src/molphene/ballstick_instancing_representation.cpp:40-70 | one bond group's commands: the colour texture, then the position and normal bindings at block 0, then the per-block bindings and draws |
| BallstickInstancing.Render | libs/core/src/molphene/ballstick_instancing_representation.cpp:28-104 | `render` issues the bond1 group, then the bond2 group, then the atom sphere draw |
| BallstickInstancing.GroupTraceLayout | libs/core/src/molphene/ballstick_instancing_representation.cpp:57-69 | position and normal buffers are bound once, at block 0; block i binds its texcoords and transforms, then draws |
| BallstickInstancing.BlockDraws | libs/core/src/molphene/ballstick_instancing_representation.cpp:60-69 | the first n blocks issue n draws in block order, the i-th with `verts_per_instance` vertices and block i's instance count |
| BallstickInstancing.BlockInstances | libs/core/src/molphene/ballstick_instancing_representation.cpp:60-69 | after n blocks, n · `instances_per_block` instances have been drawn, or (n−1) · `instances_per_block` + `remain_instances` once the last block is reached |
| BallstickInstancing.GroupDraws | libs/core/src/molphene/ballstick_instancing_representation.cpp:60-69 | a group issues exactly `size` draws, all with `verts_per_instance` vertices. Draw i uses `instances_per_block`, except the last, which uses `remain_instances`. The total is (size−1) · `instances_per_block` + `remain_instances`, or 0 for size 0 |
| BallstickInstancing.RenderOrder | libs/core/src/molphene/ballstick_instancing_representation.cpp:40-103 | no command of a later stage precedes one of an earlier stage (bond1, then bond2, then atoms), and the last command is the sphere draw |
| Application.DisplayOf | bins/app/src/molphene/basic_application.hpp:107-123 | an integer selects the display whose value it equals; None when no display has that value |
| Application.DisplayValueRoundTrip | bins/app/src/molphene/basic_application.hpp:107-123 | every display's integer value selects that display |
| Application.BondPairs | bins/app/src/molphene/basic_application.hpp:184-191 | bond endpoints fetched with `.at`: defined exactly when every endpoint index is below the atom count; then one pair per bond, in bond order |
| Application.BuildMatchesKind | bins/app/src/molphene/basic_application.hpp:419-438 | the rebuilt container holds exactly one representation, of the selected kind. It is empty exactly when a ball-and-stick build meets a bond naming a missing atom, which terminates the program |
| Application.SpacefillUsesEveryAtom | bins/app/src/molphene/basic_application.hpp:142-153 | spacefill hands every atom, in order, at scale 1.0 to the sphere attribute builder |
| Application.BuildSpacefill | bins/app/src/molphene/basic_application.hpp:135-168 | the spacefill builds collect every atom in order (see `SpacefillSpec`) |
| Application.BuildBallstick | bins/app/src/molphene/basic_application.hpp:170-266 | the ball-and-stick builds give the endpoint set and cylinder inputs of `BallstickSpec`, or end the program on an out-of-range endpoint |
| Application.AscendingMembers | bins/app/src/molphene/basic_application.hpp:199-213 | iterating the endpoint set visits exactly its members |
| Application.AscendingSorted | bins/app/src/molphene/basic_application.hpp:199-213 | iterating the endpoint set visits atoms in strictly ascending order |
| Application.AscendingLength | bins/app/src/molphene/basic_application.hpp:199-213 | iterating the set visits each member once |
| Application.EndpointsMembers | bins/app/src/molphene/basic_application.hpp:199-203 | after the insertions, the set holds both endpoints of every pair and nothing else |
| Application.EndpointsSize | bins/app/src/molphene/basic_application.hpp:199-203 | the set has at most two atoms per bond |
| Application.BondPairsTouch | bins/app/src/molphene/basic_application.hpp:184-191 | the fetched pairs touch exactly the bonded atoms, all below the atom count |
| Application.BallstickSelection | bins/app/src/molphene/basic_application.hpp:199-251 | sphere atoms are exactly the bond endpoints, each once, in strictly ascending order, at scale 0.5; both cylinder halves take every bond pair |
| Application.BallstickSphereCount | bins/app/src/molphene/basic_application.hpp:199-213 | the sphere count is at most min(atom count, 2 · bond count) |
| Application.UnbondedAtomsOmitted | bins/app/src/molphene/basic_application.hpp:199-213 | an atom in no bond gets no sphere |
| Application.KeyActionOf | bins/app/src/molphene/basic_application.hpp:440-471 | the key map, as an if-and-only-if for each action: 27 closes; 80/112 perspective on; 79/111 perspective off; 72/104 ball-and-stick instanced; 74/106 spacefill instanced; 75/107 spacefill; 76/108 ball-and-stick; every other code does nothing |
| Application.DragRotation | bins/app/src/molphene/basic_application.hpp:490-496 | a drag step turns one degree per pixel, about x by the vertical and about y by the horizontal motion, in radians, never about z; each component is zero exactly when there is no motion along it |
| Application.BasicApplication.constructor | bins/app/src/molphene/basic_application.hpp:519-531 | the member initialisers: spacefill selected, empty container, no button held at (0, 0), default camera |
| Application.BasicApplication.ResetRepresentation | bins/app/src/molphene/basic_application.hpp:419-438 | the container is cleared and then holds the one build of the selected display; the selection and the other fields are unchanged |
| Application.BasicApplication.SetRepresentation | bins/app/src/molphene/basic_application.hpp:125-133 | selecting the current display changes nothing; any other display is stored and the container rebuilt for it |
| Application.BasicApplication.SetRepresentationTwice | bins/app/src/molphene/basic_application.hpp:125-133 | selecting the same display twice has the effect of selecting it once |
| Application.BasicApplication.Setup | bins/app/src/molphene/basic_application.hpp:57-82 | after `setup`, ball-and-stick instanced is selected and the container holds exactly its build, so the four entries pushed first are gone. It holds one representation exactly when that build succeeds, and is empty when a dangling bond terminates it |
| Application.BasicApplication.OpenMolecule | bins/app/src/molphene/basic_application.hpp:84-93 | the molecule is replaced, the container rebuilt for it, and the camera top set to the bounding radius + 2 |
| Application.BasicApplication.ChangeRepresentation | bins/app/src/molphene/basic_application.hpp:107-123 | an integer equal to a display's value selects that display as `representation` does; any other integer changes nothing |
| Application.BasicApplication.KeyPressEvent | bins/app/src/molphene/basic_application.hpp:440-471 | each mapped key performs its action: Escape only requests closing, a projection key only sets the camera mode. A display key that changes the display rebuilds the container, sets `terminated` as the build does and keeps the close request. Every other key leaves the application and camera state unchanged. No key changes the camera's far, fov, near, zoom, top, width, height or matrices |
| Application.BasicApplication.MousePressEvent | bins/app/src/molphene/basic_application.hpp:473-478 | press sets `is_down` and the last position, and nothing else |
| Application.BasicApplication.MouseReleaseEvent | bins/app/src/molphene/basic_application.hpp:480-485 | release clears `is_down` and sets the last position, and nothing else |
| Application.BasicApplication.MouseMoveEvent | bins/app/src/molphene/basic_application.hpp:487-498 | while a button is held, the move records the position and appends one rotation for the drag; otherwise nothing changes |
| Application.BasicApplication.MouseScrollEvent | bins/app/src/molphene/basic_application.hpp:500-503 | scrolling up zooms in, anything else zooms out; the zoom stays within [1/220, 220], and every other camera field is unchanged |

## Left out

- GL work in `render`: the colour texture upload, attribute pointer bindings, instanced draws and the vertex attribute guard are GPU side effects. They are recorded as a trace of commands. The `all_has_same_props` asserts concern buffers the model does not contain.
- Builder calls with no bodies in this model are not interpreted. This covers `atoms_to_sphere_attrs`, `bonds_to_cylinder_attrs`, the `build_*_mesh_*` functions, `build_shape_color_texture`, `instance_copy_builder` and the mesh builders. A built representation records the inputs handed to them: the atom indices in order, the radius scale, the bond pairs and the cylinder half. The instanced builds pass a one-element default attribute array for the shared mesh; that detail is not recorded.
- The representation's atom radius kind and sizes inside the builds are not recorded; `atom_radius` is modelled on its own.
- `atom_color` looks up `color_manager`, which is not part of this model. `SceneModel.TransformSphereAttrs` takes the radius and colour functions as parameters.
- The `chemdoodle_json_parser` call, `scene.reset_mesh`, `scene.bounding_sphere` and `scene.rotate` are outside the model. `OpenMolecule` receives the parsed molecule and the bounding radius as parameters. The drag rotations handed to the scene are recorded as a sequence.
- Not modelled: `init_context`, `framebuffer_size`, `renderer`, `render_frame`, and the canvas and framebuffer size callbacks. These are windowing and GL calls.
- The application's camera is `camera<void>` from `molphene/camera.hpp` (bins/app/src/molphene/basic_application.hpp:17, 39), whose definition is not part of this model. It is taken to behave as the `Camera` of src/lib/molphene/Camera.hpp, `CameraModel.Camera`, for the members the application uses: `zoom_in`, `zoom_out`, `projection_mode`, `top` and the default zoom. Its `aspect_ratio(w, h)` and `update_view_matrix`, called by `setup` at lines 72-73 and by `open_pdb_data` at line 92, are left out.
- In `build_ballstick_representation`, the vector of atom pointers filled at lines 193-197 is never used, so it is not modelled.
- The default-constructed representations that `setup` pushes are modelled as `Unbuilt` entries, which record only their kind.
- `Application.DisplayValue`: the integer values of `molecule_display` are not in this model. They are taken to be 0 to 3 in declaration order.
- `Application.ClickState`: `io::click_state` (`molphene/io/click_state.hpp`) is not part of this model. The model assumes it stores the positions as `int`, modelled as mathematical integers. The only click state at hand, src/bin/web/ClickState.hpp:10-12, stores `last_x` and `last_y` as `size_t`. Under that type a negative position wraps, so the drag delta `last_x - pos_x` at lines 490-493 becomes about 1.8e19, and the rotation `Application.DragRotation` and `Application.BasicApplication.MouseMoveEvent` give differs.
- `Application.BasicApplication`: once `terminated` is set, `std::terminate` has ended the source program. The event methods of the model still accept calls and change state; such later calls do not correspond to any source behaviour.
- The radius of each atom in `transform_sphere_attrs` comes from `atom_radius`, which is applied as a parameter.
- `SceneModel.CeilSqrt`: the atlas side is computed with floating-point `sqrt` and `ceil` in the source. The model uses the exact integer ceiling square root and does not model rounding on very large atom counts.
- The `GLsizei` loop counters of `render` and the `size_t` fields are modelled as natural numbers, without overflow.
- `Matrix.Mat4.Rotate`: the sine, cosine and normalised axis (`std::sin`, `std::cos`, `to_unit`) are parameters. The zero-angle path is exact.
- `lookat`, `frustum`, `orthogonal` and `perspective` on `mat4`, and the camera's projection-matrix computations, rely on trigonometry and IEEE tests such as `isfinite`. They are not modelled; `ProjectionMatrixKind` models only which path `projection_matrix` takes.
- `Camera::reset_zoom` is declared `const` yet assigns a member, so it is ill-formed if instantiated. It is not modelled.
- `CameraModel.Camera.AspectRatio`: for height 0 the float division yields infinity or NaN. The model reports only "not finite" and does not say which.
- `CameraModel.QuarterPi` and `Application.Pi` are the double values of `M_PI_4` and `M_PI`.
- `Matrix.Mat4.Invert` models the corrected `inverse()`. The code as written is `Matrix.InverseAsWritten` (see Findings).
- Floating-point rounding throughout: every scalar is a `real`.

## Findings

| source | as written | input that shows it | evidently intended | confidence | as-written member | corrected member |
|---|---|---|---|---|---|---|
| libs/gfxm/src/gfxm/mat4.hpp:585-590 | `determinant()` is declared to return `bool` (line 614), so the polynomial collapses to "nonzero". `inverse()` then multiplies the adjugate by that boolean (1 or 0) instead of dividing by the determinant, so it returns the adjugate itself | the matrix 2·I: its determinant is 16, and `inverse()` yields 8·I where 0.5·I is the inverse; for every matrix the result is correct only when the determinant is 0 or 1 | adjugate divided by the scalar determinant, so that a · inverse(a) is the identity for every invertible a | high (not executed) | Matrix.InverseAsWritten, AdjugateProof.InverseAsWrittenCounterexample | Matrix.Inverse, AdjugateProof.InverseIsRightInverse |
