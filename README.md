# learnopengl camera, model loading and mesh drawing, in Dafny

This project models the three pieces of discrete logic in a small OpenGL
renderer (xaviervitor/learnopengl), with the graphics, windowing, import and
image libraries abstracted away:

- **The fly camera** (`src/camera.cpp`). `FlyCamera.Camera` is a class with the
  C++ fields: position, front, up, right, worldUp, yaw, pitch, movementSpeed,
  mouseSensitivity and zoom. Each input handler is a method whose frame names
  only the fields it writes. Its new state is tied to a pure function of the old
  state (`Keyboard`, `MouseMovement`, `MouseScroll`). The lemmas about those
  functions state the pitch and zoom bounds, the round trips and the frame
  conditions. `updateCameraVectors` is abstract. The camera is given a function
  `orient` at construction, mapping (yaw, pitch, worldUp) to the new (front,
  right, up). The method may write only those three fields.
- **Model loading** (`src/model.cpp`). `ModelLoader.Model` holds:
  - the meshes;
  - the directory;
  - the texture cache (`textures_loaded`);
  - an abstract GL texture-name generator (`nextTextureId`, starting at 1);
  - the list of image uploads made.

  An imported scene is an input value (`Scene.AiScene`, `AiNode`, `AiMesh`,
  `AiFace`, `AiMaterial`, or None when import failed). The image decoder is a
  function from a path to the decoded image's size and channel count (None when
  decoding fails).

  The methods follow the C++ loops. `processNode` is a recursive method
  appending to the mesh list. Its own-mesh loop is the separate method
  `ProcessOwnMeshes`, and its loop over the children is `ProcessChildren`,
  one pass of which is `ProcessChild`. The texture lookup in `loadMaterialTextures` is a linear
  search with a `skip` flag and `break`. One pass of that loop is the method
  `LoadTexture`, and its miss branch is `CacheNewTexture`.

  The class invariant `Valid` says:
  - the cache has one entry per path;
  - every cache entry is a diffuse or a specular texture, the only two types
    `src/include/mesh.hpp:16-17` allows;
  - cache ids are increasing and below the generator;
  - every texture of every mesh is a cache entry.

  The loading methods therefore require the type name they are given to be
  "texture_diffuse" or "texture_specular". Those are the only two processMesh passes.

  A `Request` is a texture file a material lists, paired with the type name
  it is loaded under. `MaterialRequests` gives a mesh's material's diffuse files
  as diffuse and then its specular files as specular. `OrderRequests` gives the
  requests of the meshes an index list names, mesh after mesh.

  The predicate `Loads` says what loading a list of requests, in order, did to
  the cache, the generator and the uploads:
  - the cache gained exactly the files it lacked, each once, in order of first
    request;
  - each new entry has the type of the first request that named its file;
  - the new entries have consecutive ids from the old generator value, and the
    generator moved past them;
  - each new entry was uploaded from directory + '/' + file, in order.

  Every loading method, up to `LoadModel` and the constructor, ends in `Loads`
  over the requests of the imported meshes it processed. The recursive methods
  carry a ghost table, the requests of each imported mesh. `TableFor` ties the
  table to the scene, and `LoadModel` passes `MeshTable` of the scene.
- **Texture binding when drawing a mesh** (`src/mesh.cpp`). `MeshRender.Mesh`
  keeps its vertices, indices and textures as given. `Draw` runs the C++ loop with
  its two counters and returns the (uniform, unit, texture id) bindings it makes
  and the element count of the draw call. It is proved equal to `DrawBindings`,
  a closed form: texture i gets unit i and the uniform `"material." + type + n`.
  Here n is the decimal count of earlier textures of the same type, and it is
  empty for types other than diffuse and specular. `Decimal.ToDecimal` stands for
  `std::to_string` on naturals and is proved invertible.

Quantities the C++ code keeps in `float` are `real` here. When a texture file
is already cached, the cached entry is reused as it is. It keeps the type it was
first loaded under, even when a material later lists it under the other type.
The model keeps this behaviour.

## Model

| member | source | states |
|---|---|---|
| Decimal.ToDecimal | src/mesh.cpp:61-63 | the decimal string of n is nonempty and all digits; it starts with '0' exactly when n is 0, and has one digit exactly when n < 10, so 0 gives "0" |
| Decimal.ParseToDecimal | src/mesh.cpp:61-63 | reading the decimal string of n back gives n |
| Decimal.ToDecimalInjective | src/mesh.cpp:61-63 | distinct counters give distinct decimal strings |
| FlyCamera.Clamp | src/camera.cpp:59-64 | the result lies in [lo, hi]; it is v when v is in range, lo below it and hi above it |
| FlyCamera.Keyboard | src/camera.cpp:30-48 | a key press changes only the position |
| FlyCamera.KeyboardMoves | src/camera.cpp:35-47 | FORWARD adds front·v, BACKWARD subtracts it, LEFT subtracts right·v and RIGHT adds it, with v = movementSpeed·deltaTime |
| FlyCamera.KeyboardDisplaces | src/camera.cpp:35-47 | every key adds v times its signed heading (±front, ±right) to the position |
| FlyCamera.KeyboardOffsetFrom | src/camera.cpp:35-47 | a key moves by the same offset from any state with the same front, right and speed |
| FlyCamera.KeyboardCommutes | src/camera.cpp:30-48 | two key presses give the same state in either order |
| FlyCamera.KeyboardAt | src/camera.cpp:30-48 | a key press is its start state with only the position moved by v along the key's heading |
| FlyCamera.MoveTwice | src/camera.cpp:35-47 | two moves along one heading add up to one move by the summed distance |
| FlyCamera.KeyboardAdditive | src/camera.cpp:30-48 | two presses of one key, for t1 and then t2, give the same state as one press for t1 + t2 |
| FlyCamera.ForwardBackwardRoundTrip | src/camera.cpp:40-43 | FORWARD then BACKWARD with the same deltaTime restores the state |
| FlyCamera.LeftRightRoundTrip | src/camera.cpp:44-47 | LEFT then RIGHT with the same deltaTime restores the state |
| FlyCamera.MouseMovement | src/camera.cpp:50-68 | position, zoom, worldUp, speed and sensitivity are unchanged, and the basis is the abstract updateCameraVectors of the new angles |
| FlyCamera.MouseYawAccumulates | src/camera.cpp:51-55 | yaw becomes old yaw + xOffset·mouseSensitivity, never clamped |
| FlyCamera.MousePitchConstrained | src/camera.cpp:52-64 | with constrainPitch, pitch is old pitch + yOffset·mouseSensitivity clamped to [-89, 89] |
| FlyCamera.MousePitchFree | src/camera.cpp:52-56 | without constrainPitch, pitch is exactly old pitch + yOffset·mouseSensitivity |
| FlyCamera.MouseMovesYaw | src/camera.cpp:51-55 | after any run of mouse events, yaw is the start plus the scaled sum of x offsets |
| FlyCamera.MouseMovesPitchBounded | src/camera.cpp:59-64 | after any nonempty constrained run, pitch lies in [-89, 89] |
| FlyCamera.MouseMovesFrame | src/camera.cpp:50-68 | a run of mouse events changes neither position, zoom, worldUp, speed nor sensitivity |
| FlyCamera.MouseScroll | src/camera.cpp:70-78 | a scroll changes only zoom, which ends in [1, 45] |
| FlyCamera.ScrollClamps | src/camera.cpp:73-77 | the new zoom is clamp(old zoom − yOffset, 1, 45) |
| FlyCamera.ScrollRoundTrip | src/camera.cpp:73-77 | scrolling back by the same amount undoes a scroll that hit no bound |
| FlyCamera.ScrollsBounded | src/camera.cpp:70-78 | after any nonempty run of scrolls, zoom is in [1, 45] and nothing else changed |
| FlyCamera.Camera.constructor | src/camera.cpp:5-12 | stores position, worldUp, yaw and pitch as given, sets speed 2.5, sensitivity 0.1 and zoom 45, and computes the basis from the angles; position, worldUp, yaw and pitch default to the origin, (0, 1, 0), −90 and 0 as in src/include/camera.hpp:33-36 |
| FlyCamera.Camera.FromScalars | src/camera.cpp:14-21 | the scalar constructor: the given coordinates become position and worldUp, yaw and pitch as given, the same defaults |
| FlyCamera.Camera.ProcessKeyboard | src/camera.cpp:30-48 | writes only position; the new state is Keyboard of the old |
| FlyCamera.Camera.ProcessMouseMovement | src/camera.cpp:50-68 | writes only yaw, pitch and the basis; the new state is MouseMovement of the old; constrainPitch defaults to true as in src/include/camera.hpp:54 |
| FlyCamera.Camera.ProcessMouseScroll | src/camera.cpp:70-78 | writes only zoom; the new state is MouseScroll of the old |
| FlyCamera.Camera.UpdateCameraVectors | src/camera.cpp:80-101 | writes only front, right and up, setting them to the abstract basis of yaw, pitch and worldUp |
| Scene.FaceIndicesAppend | src/model.cpp:88-93 | flattening faces distributes over concatenation |
| Scene.FaceIndicesAt | src/model.cpp:88-93 | face k's indices sit in the flat list right after those of the faces before it |
| Scene.PreOrderMembers | src/model.cpp:43-55 | a mesh index is in a node's pre-order list exactly when the node or one of its children's subtrees lists it |
| Scene.ChildrenPreOrderMembers | src/model.cpp:51-54 | the same, for the subtrees of the first n children |
| Scene.PreOrderFits | src/model.cpp:45-47 | every index in the pre-order list names a mesh of the scene |
| MeshRender.DrawNumbering | src/mesh.cpp:55-68 | the uniform of a diffuse texture ends in the count of diffuse textures before it, a specular one in its own count, and any other type has no number |
| MeshRender.CountGrows | src/mesh.cpp:57-63 | a later texture of the same type has a larger count before it |
| MeshRender.CountStep | src/mesh.cpp:57-63 | one more texture adds one to its own type's counter and leaves the other unchanged |
| MeshRender.NumberedUniformsDiffer | src/mesh.cpp:55-68 | "material." + type + number differ for two diffuse/specular types that differ, or for one type with two different counts |
| MeshRender.DrawUniformsDistinct | src/mesh.cpp:55-68 | when every texture is diffuse or specular, no two textures get the same uniform name |
| MeshRender.Mesh.constructor | src/mesh.cpp:6-12 | stores vertices, indices and textures exactly as given |
| MeshRender.Mesh.Draw | src/mesh.cpp:49-78 | the loop with running counters makes exactly the bindings of DrawBindings: texture i on unit i under "material." + type + number; it draws every index |
| ModelLoader.FormatFor | src/model.cpp:150-156 | 1 channel gives RED, 3 RGB and 4 RGBA, each exactly for that count; other counts give none |
| ModelLoader.FormatChannelsInverse | src/model.cpp:150-156 | a format is chosen exactly for its own channel count |
| ModelLoader.UploadFor | src/model.cpp:149-172 | one upload, of the image's size and format, when the image decoded with 1, 3 or 4 channels; none otherwise |
| ModelLoader.LastSlash | src/model.cpp:39 | the index of the last '/', or none when there is no '/' |
| ModelLoader.Directory | src/model.cpp:37-39 | the directory is the prefix before the last '/', or the whole path when it has none |
| ModelLoader.NewNamesMembers | src/model.cpp:110-137 | a file is loaded by a run of lookups exactly when it is asked for and not already cached |
| ModelLoader.NewNamesDistinct | src/model.cpp:115-136 | a run of lookups loads each file at most once |
| ModelLoader.CacheStaysDistinct | src/model.cpp:116-136 | a cache without duplicate paths keeps none after a run of lookups |
| ModelLoader.AllHitsLoadNothing | src/model.cpp:115-136 | a run loads nothing exactly when every file asked for is cached |
| ModelLoader.CacheEntryByPath | src/model.cpp:116-123 | in a cache without duplicate paths, the entry found for a path is the one cached for it |
| ModelLoader.LookupStep | src/model.cpp:110-137 | one more lookup keeps the result one-entry-per-name and the cache paths = old paths + newly loaded names |
| ModelLoader.LookupRunDone | src/model.cpp:110-138 | after every lookup, the result's paths are the material's file names in order |
| ModelLoader.GrownSnoc | src/model.cpp:128-136 | caching a texture with the next id and the requested type keeps every added entry's id and type as handed out |
| ModelLoader.CacheValidSnoc | src/model.cpp:128-136 | caching a diffuse or specular texture for a new path under the next id keeps the cache invariant |
| ModelLoader.MeshTypesKnown | src/include/mesh.hpp:16-17 | under the cache invariant every texture of every mesh is diffuse or specular |
| ModelLoader.GrownTyped | src/model.cpp:110-136 | every entry a run of lookups under one type name adds has the type of the first request for its file |
| ModelLoader.NewUploadsSnoc | src/model.cpp:130-131 | loading one more entry makes its upload after the earlier ones |
| ModelLoader.NewUploadsLast | src/model.cpp:130-131 | the uploads for entries and then e are those for the entries, then e's |
| ModelLoader.NewUploadsAppend | src/model.cpp:130-131 | the uploads for two runs of new entries are the first run's uploads, then the second's |
| ModelLoader.NewNamesAppend | src/model.cpp:110-137 | looking up a then b loads a's new names, then those of b that neither the cache nor a supplied |
| ModelLoader.LoadsNothing | src/model.cpp:110-137 | loading no files changes neither the cache, the generator nor the uploads |
| ModelLoader.LoadsAppend | src/model.cpp:110-137 | loading f1 and then f2 is loading f1 + f2: the gains, ids, types and uploads compose |
| ModelLoader.TypesAppend | src/model.cpp:110-137 | an entry gained while loading f1 has the type of f1's first request for it; one gained while loading f2 was not requested in f1, so its type is that of f2's first request |
| ModelLoader.FirstTypeAppend | src/model.cpp:115-136 | the first request for a file in a + b is a's when a names the file, and b's otherwise |
| ModelLoader.FirstTypeUniform | src/model.cpp:110-136 | within one material list every listed file is requested under that list's type |
| ModelLoader.MaterialRequestType | src/model.cpp:96-103 | a file a material lists is first requested as diffuse when the diffuse list has it, as specular otherwise |
| ModelLoader.MaterialLoads | src/model.cpp:96-103 | loading the diffuse files and then the specular files is loading the material's requests, and the two texture lists joined hold the material's files |
| ModelLoader.MaterialTypes | src/model.cpp:96-103 | after loading a material's requests, each entry gained is diffuse when the diffuse list names its file and specular otherwise |
| ModelLoader.GatherLast | src/model.cpp:45-49 | the requests of an index list and then index k are those of the list, then mesh k's |
| ModelLoader.GatherAppend | src/model.cpp:43-55 | the requests of two index lists, one after the other, are those of the concatenated list |
| ModelLoader.MeshTableAt | src/model.cpp:46-48 | entry k of the request table is the requests of imported mesh k |
| ModelLoader.MeshTableFor | src/model.cpp:46-48 | the scene's request table holds every imported mesh's requests |
| ModelLoader.LoadsOrders | src/model.cpp:43-55 | loading the requests of one index list and then of another is loading those of both |
| ModelLoader.TexturesTyped | src/model.cpp:25-55 | after loading into an empty cache, every texture of every mesh has the type of the first request for its file |
| ModelLoader.MeshStep | src/model.cpp:45-49 | loading mesh order[i]'s requests extends the load of order[..i] to order[..i + 1] |
| ModelLoader.OwnMeshStep | src/model.cpp:45-49 | appending the mesh built for the next own index extends the built run by that index |
| ModelLoader.CacheValidAddMesh | src/model.cpp:48 | appending a mesh whose textures are all cached keeps the cache invariant |
| ModelLoader.ChildrenStep | src/model.cpp:51-54 | after child i's subtree, the meshes built and the requests loaded so far cover the first i + 1 children |
| ModelLoader.BuiltRunAppend | src/model.cpp:43-55 | meshes built for two index lists, one after the other, are the meshes built for the concatenated list |
| ModelLoader.ChildStep | src/model.cpp:52-54 | appending the meshes of child i's subtree extends the run by that subtree's pre-order |
| ModelLoader.NodeDone | src/model.cpp:43-55 | a node's own meshes followed by all children's subtrees are its whole pre-order |
| ModelLoader.ConvertVertices | src/model.cpp:63-86 | one vertex per imported vertex, copying its position, its normal when there are normals, and its texture coordinates or (0, 0) when there are none |
| ModelLoader.FlattenFaces | src/model.cpp:88-93 | the index list is every face's indices, face after face |
| ModelLoader.Model.constructor | src/model.cpp:15-17 | a failed import leaves the model empty, with the generator at 1. Otherwise: the directory is the path's directory; the meshes are those built for the scene's pre-order; the cache, generator (from 1) and uploads are exactly those of loading the pre-order's requests (Loads, types included); and every mesh texture has the type of the first request for its file |
| ModelLoader.Model.Draw | src/model.cpp:19-23 | draws every mesh, in order; within each mesh no two bindings share a uniform name |
| ModelLoader.Model.LoadModel | src/model.cpp:25-41 | a missing, rootless or incomplete scene changes nothing. Otherwise the directory is set, the appended meshes are those of the pre-order, and the cache, generator and uploads change exactly as loading the pre-order's requests (Loads, types included) |
| ModelLoader.Model.ProcessNode | src/model.cpp:43-55 | appends one built mesh per index of the node's pre-order, in that order, keeping the invariant; the cache, generator and uploads change exactly as loading those meshes' requests (Loads, types included) |
| ModelLoader.Model.ProcessChildren | src/model.cpp:51-54 | appends the meshes of every child's subtree, child after child, and loads exactly their requests (Loads, types included) |
| ModelLoader.Model.ProcessChild | src/model.cpp:52-54 | one pass of the children loop: after child i's subtree, the appended meshes and the requests loaded cover the first i + 1 children |
| ModelLoader.Model.ProcessOwnMeshes | src/model.cpp:45-49 | appends the meshes built for the node's own mesh indices, in order, and loads exactly their requests (Loads, types included) |
| ModelLoader.Model.ProcessMesh | src/model.cpp:57-106 | the mesh has the converted vertices, the flattened indices and the diffuse then specular material textures, all in the cache. The cache, generator and uploads change exactly as loading the material's requests (Loads). Each entry gained is "texture_diffuse" when the diffuse list names its file and "texture_specular" otherwise |
| ModelLoader.Model.LoadMaterialTextures | src/model.cpp:108-139 | one cached texture per listed file, in order. The cache gains exactly the missing files, once each, under the given type name and the generator's next ids, each uploaded from directory/file (Loads over the list requested under that type) |
| ModelLoader.Model.LoadTexture | src/model.cpp:114-136 | a hit returns the cached entry for that path and changes nothing; a miss creates a texture with the next id, the given type and the file name, appends it and uploads it |
| ModelLoader.Model.CacheNewTexture | src/model.cpp:127-136 | loads directory + '/' + file under the next id and appends the new texture to the cache |
| ModelLoader.Model.TextureFromFile | src/model.cpp:141-176 | takes the next texture name and uploads the image exactly as UploadFor describes |

## Left out

- updateCameraVectors: its trigonometry and normalisation are not modelled. The basis is whatever `orient` gives for the new angles and worldUp.
- `Camera::GetViewMatrix` (`glm::lookAt`) is a foreign library call and is not modelled.
- IEEE single-precision rounding is not modelled: every quantity is exact `real`. The literal 0.1 is exact here, unlike `0.1f`. The round trips hold only under exact arithmetic.
- The constructors' initial front of (0, 0, −1) is not recorded, because updateCameraVectors overwrites it before the constructor returns.
- src/main.cpp (window, render loop, input callbacks) is not part of this model. Neither are src/shader.cpp, include/shader.hpp and src/filestring.cpp; they are I/O and GL pass-through.
- `Mesh::setup` and every GL call are not modelled: buffer uploads, `glActiveTexture`/`glBindTexture`, `glDrawElements` and texture parameters. `Mesh.Draw` returns the bindings and element count instead; `TextureFromFile` records the upload.
- Assimp's `ReadFile` and its post-processing flags are not modelled. The scene is an input that satisfies `SceneFits`: the streams the importer fills are as long as the vertex list, every mesh index in the root's subtree is below the number of meshes, and, when the scene has materials, every mesh's material index is below their number.
- stb decoding and `stbi_image_free` are not modelled. The decoder is the function `images`.
- `glGenTextures` is an id generator starting at 1 that hands out consecutive names.
- The `printf` error messages of loadModel and textureFromFile are left out (output only).
- `unsigned int` counters and the `(int) i` unit cast are unbounded naturals; no wrap-around is modelled.
- A vertex whose mesh has no normals has its normal as None; the C++ code leaves the field uninitialised.
- Only the first texture-coordinate set, and only its x and y, is read, as in the source. Other texture types than diffuse and specular are never requested by the loader; a material is its file lists for those two types.
- File names are compared by string equality; `strcmp` on names with embedded NUL bytes is not modelled.
- Meshes are objects with constant fields, so the copies `std::vector<Mesh>` makes are not modelled.
