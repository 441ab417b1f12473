/**
 * Model loading bookkeeping: walking the imported node tree, flattening each
 * mesh, and the texture cache that makes every texture file load once.
 *
 * Importing and image decoding are inputs: the scene (or its absence) is a
 * parameter, and `images` maps a file path to what the decoder reports, None
 * when it fails. GL texture creation is an id generator (`nextTextureId`) plus
 * the list of image uploads made.
 */
module ModelLoader {
  import opened Wrappers
  import opened Geometry
  import opened Scene
  import opened MeshRender

  /** What the image decoder reports of a file it could read. */
  datatype Image = Image(width: int, height: int, channels: int)

  datatype PixelFormat = Red | Rgb | Rgba {
    /** The GL enumerant passed to glTexImage2D. */
    function GlEnum(): nat {
      match this
      case Red => 0x1903
      case Rgb => 0x1907
      case Rgba => 0x1908
    }
  }

  /** One glTexImage2D call: the image data of texture `id`. */
  datatype Upload = Upload(id: nat, format: PixelFormat, width: int, height: int)

  type ImageSource = string -> Option<Image>

  /** The first texture name the id generator hands out (GL never hands out 0). */
  const FIRST_TEXTURE_ID: nat := 1

  // ---------------------------------------------------------------- texture files

  /** The pixel format for a channel count; None means the image is not uploaded. */
  function FormatFor(channels: int): (f: Option<PixelFormat>)
    ensures f == Some(Red) <==> channels == 1
    ensures f == Some(Rgb) <==> channels == 3
    ensures f == Some(Rgba) <==> channels == 4
  {
    if channels == 1 then Some(Red)
    else if channels == 3 then Some(Rgb)
    else if channels == 4 then Some(Rgba)
    else None
  }

  /** How many channels a format holds. */
  function Channels(f: PixelFormat): nat {
    match f
    case Red => 1
    case Rgb => 3
    case Rgba => 4
  }

  /** FormatFor and Channels are inverse: a format is chosen exactly for its own channel count. */
  lemma FormatChannelsInverse(channels: int, f: PixelFormat)
    ensures FormatFor(channels) == Some(f) <==> channels == Channels(f)
  {
  }

  /** The uploads made for texture `id` from what decoding gave. */
  function UploadFor(id: nat, image: Option<Image>): (u: seq<Upload>)
    ensures |u| <= 1
    ensures u != [] <==> image.Some? && image.value.channels in {1, 3, 4}
    ensures u != [] ==> u[0].id == id && u[0].width == image.value.width && u[0].height == image.value.height
                        && Channels(u[0].format) == image.value.channels
  {
    match image
    case None => []
    case Some(img) =>
      match FormatFor(img.channels)
      case None => []
      case Some(f) => [Upload(id, f, img.width, img.height)]
  }

  // ---------------------------------------------------------------- paths

  /** The index of the last '/' of s (std::string::find_last_of). */
  function LastSlash(s: string): (r: Option<nat>)
    ensures r.Some? ==> r.value < |s| && s[r.value] == '/' && forall k :: r.value < k < |s| ==> s[k] != '/'
    ensures r.None? ==> forall k :: 0 <= k < |s| ==> s[k] != '/'
    decreases |s|
  {
    if s == [] then None
    else if s[|s| - 1] == '/' then Some(|s| - 1)
    else LastSlash(s[..|s| - 1])
  }

  /** The directory part of a model path: everything before the last '/', or the
      whole path when it has none. */
  function Directory(path: string): (d: string)
    ensures d <= path
    ensures |d| == |path| <==> forall k :: 0 <= k < |path| ==> path[k] != '/'
    ensures |d| < |path| ==> path[|d|] == '/' && forall k :: |d| < k < |path| ==> path[k] != '/'
  {
    match LastSlash(path)
    case None => path
    case Some(k) => path[..k]
  }

  // ---------------------------------------------------------------- the cache

  function Paths(ts: seq<Texture>): (ps: seq<string>)
    ensures |ps| == |ts| && forall i :: 0 <= i < |ts| ==> ps[i] == ts[i].path
  {
    seq(|ts|, i requires 0 <= i < |ts| => ts[i].path)
  }

  lemma PathsAppend(a: seq<Texture>, b: seq<Texture>)
    ensures Paths(a + b) == Paths(a) + Paths(b)
  {
  }

  predicate Distinct(s: seq<string>) {
    forall i, j :: 0 <= i < j < |s| ==> s[i] != s[j]
  }

  /** The names among `names` that are not in `known`, each once, in order of first appearance:
      the files a run of lookups loads. */
  function NewNames(known: seq<string>, names: seq<string>): seq<string>
    decreases |names|
  {
    if names == [] then []
    else
      var earlier := NewNames(known, names[..|names| - 1]);
      var n := names[|names| - 1];
      if n in known || n in earlier then earlier else earlier + [n]
  }

  /** One more lookup loads its name only if neither known nor loaded before. */
  lemma NewNamesSnoc(known: seq<string>, names: seq<string>, n: string)
    ensures NewNames(known, names + [n])
         == if n in known || n in NewNames(known, names) then NewNames(known, names) else NewNames(known, names) + [n]
  {
    assert (names + [n])[..|names|] == names;
  }

  /** A name is loaded exactly when it is asked for and not known yet. */
  lemma {:induction false} NewNamesMembers(known: seq<string>, names: seq<string>, x: string)
    ensures x in NewNames(known, names) <==> x !in known && x in names
    decreases |names|
  {
    if names != [] {
      var init := names[..|names| - 1];
      NewNamesMembers(known, init, x);
      assert names == init + [names[|names| - 1]];
    }
  }

  /** After the first i lookups of names: the cache's paths are known followed by the
      names loaded so far, and textures holds, for each lookup, a cache entry for its name. */
  predicate LookupRun(known: seq<string>, names: seq<string>, i: nat, cache: seq<Texture>, textures: seq<Texture>) {
    && i <= |names|
    && Paths(cache) == known + NewNames(known, names[..i])
    && |textures| == i
    && (forall k :: 0 <= k < i ==> textures[k].path == names[k])
    && AllIn(textures, cache)
  }

  /** One more lookup: a hit leaves the cache alone, a miss appends an entry for the name;
      either way the entry found goes to the result. */
  lemma LookupStep(known: seq<string>, names: seq<string>, i: nat, before: seq<Texture>, after: seq<Texture>,
                   textures: seq<Texture>, t: Texture)
    requires LookupRun(known, names, i, before, textures) && i < |names|
    requires t.path == names[i] && t in after && before <= after
    requires names[i] in Paths(before) ==> after == before
    requires names[i] !in Paths(before) ==> after == before + [t]
    ensures LookupRun(known, names, i + 1, after, textures + [t])
  {
    assert names[..i + 1] == names[..i] + [names[i]];
    NewNamesSnoc(known, names[..i], names[i]);
    if names[i] !in Paths(before) {
      assert Paths(before + [t]) == Paths(before) + [t.path];
    }
    AllInGrows(textures, before, after);
  }

  /** After every lookup, the result holds one entry per name, in order. */
  lemma LookupRunDone(known: seq<string>, names: seq<string>, cache: seq<Texture>, textures: seq<Texture>)
    requires LookupRun(known, names, |names|, cache, textures)
    ensures Paths(textures) == names && AllIn(textures, cache)
    ensures Paths(cache) == known + NewNames(known, names)
  {
    assert names[..|names|] == names;
  }

  /** Each name is loaded at most once. */
  lemma {:induction false} NewNamesDistinct(known: seq<string>, names: seq<string>)
    ensures Distinct(NewNames(known, names))
    decreases |names|
  {
    if names != [] {
      NewNamesDistinct(known, names[..|names| - 1]);
    }
  }

  /** The cache never holds two entries for one path. */
  lemma CacheStaysDistinct(known: seq<string>, names: seq<string>)
    requires Distinct(known)
    ensures Distinct(known + NewNames(known, names))
  {
    var nn := NewNames(known, names);
    NewNamesDistinct(known, names);
    forall k | 0 <= k < |nn|
      ensures nn[k] !in known
    {
      NewNamesMembers(known, names, nn[k]);
    }
  }

  /** Lookups that all hit load nothing; one that misses loads something. */
  lemma AllHitsLoadNothing(known: seq<string>, names: seq<string>)
    ensures NewNames(known, names) == [] <==> forall i :: 0 <= i < |names| ==> names[i] in known
  {
    var nn := NewNames(known, names);
    if nn != [] {
      NewNamesMembers(known, names, nn[0]);
    }
    forall i | 0 <= i < |names| && names[i] !in known
      ensures nn != []
    {
      NewNamesMembers(known, names, names[i]);
    }
  }

  /** In a cache without duplicate paths, an entry is found by its path alone. */
  lemma CacheEntryByPath(cache: seq<Texture>, t: Texture, k: nat)
    requires Distinct(Paths(cache)) && t in cache && k < |cache| && cache[k].path == t.path
    ensures cache[k] == t
  {
    var j :| 0 <= j < |cache| && cache[j] == t;
    assert Paths(cache)[j] == Paths(cache)[k];
  }

  // ---------------------------------------------------------------- requests

  /** A texture file a material lists, with the type name it is loaded under. */
  datatype Request = Request(path: string, typeName: string)

  function Names(rs: seq<Request>): (ns: seq<string>)
    ensures |ns| == |rs| && forall i :: 0 <= i < |rs| ==> ns[i] == rs[i].path
  {
    seq(|rs|, i requires 0 <= i < |rs| => rs[i].path)
  }

  /** The files of one material list, each requested under typeName. */
  function Requests(names: seq<string>, typeName: string): (rs: seq<Request>)
    ensures |rs| == |names| && forall i :: 0 <= i < |names| ==> rs[i] == Request(names[i], typeName)
  {
    seq(|names|, i requires 0 <= i < |names| => Request(names[i], typeName))
  }

  lemma NamesOfRequests(names: seq<string>, typeName: string)
    ensures Names(Requests(names, typeName)) == names
  {
  }

  lemma NamesConcat(a: seq<Request>, b: seq<Request>)
    ensures Names(a + b) == Names(a) + Names(b)
  {
  }

  /** The type name of the first request for path p; "" when none asks for it. */
  function FirstType(rs: seq<Request>, p: string): string
    decreases |rs|
  {
    if rs == [] then "" else if rs[0].path == p then rs[0].typeName else FirstType(rs[1..], p)
  }

  /** The first request for p in a + b is in a when a asks for p, and in b otherwise. */
  lemma {:induction false} FirstTypeAppend(a: seq<Request>, b: seq<Request>, p: string)
    ensures FirstType(a + b, p) == if p in Names(a) then FirstType(a, p) else FirstType(b, p)
    decreases |a|
  {
    if a == [] {
      assert a + b == b;
    } else {
      assert (a + b)[0] == a[0] && (a + b)[1..] == a[1..] + b;
      assert Names(a) == [a[0].path] + Names(a[1..]);
      FirstTypeAppend(a[1..], b, p);
    }
  }

  /** Within one material list every listed file is requested under the list's type. */
  lemma {:induction false} FirstTypeUniform(names: seq<string>, typeName: string, p: string)
    requires p in names
    ensures FirstType(Requests(names, typeName), p) == typeName
    decreases |names|
  {
    var rs := Requests(names, typeName);
    if names[0] != p {
      assert names == [names[0]] + names[1..];
      assert rs[1..] == Requests(names[1..], typeName);
      FirstTypeUniform(names[1..], typeName, p);
    }
  }

  /** The requests of a mesh's material: all diffuse files, then all specular ones;
      none when the scene has no materials. */
  function MaterialRequests(mesh: AiMesh, scene: AiScene): seq<Request> {
    if 0 < |scene.materials| && mesh.materialIndex < |scene.materials| then
      var material := scene.materials[mesh.materialIndex];
      Requests(material.Filenames(Diffuse), DIFFUSE) + Requests(material.Filenames(Specular), SPECULAR)
    else []
  }

  /** A file the material lists is requested as diffuse when the diffuse list has it,
      and as specular otherwise. */
  lemma MaterialRequestType(mesh: AiMesh, scene: AiScene, p: string)
    requires 0 < |scene.materials| && mesh.materialIndex < |scene.materials|
    requires p in Names(MaterialRequests(mesh, scene))
    ensures FirstType(MaterialRequests(mesh, scene), p)
              == if p in scene.materials[mesh.materialIndex].diffuse then DIFFUSE else SPECULAR
  {
    var material := scene.materials[mesh.materialIndex];
    var d, s := Requests(material.diffuse, DIFFUSE), Requests(material.specular, SPECULAR);
    NamesConcat(d, s);
    NamesOfRequests(material.diffuse, DIFFUSE);
    NamesOfRequests(material.specular, SPECULAR);
    FirstTypeAppend(d, s, p);
    if p in material.diffuse {
      FirstTypeUniform(material.diffuse, DIFFUSE, p);
    } else {
      FirstTypeUniform(material.specular, SPECULAR, p);
    }
  }

  /** The requests of each of the imported meshes, in order. */
  function MeshTable(meshes: seq<AiMesh>, scene: AiScene): (t: seq<seq<Request>>)
    ensures |t| == |meshes|
    decreases |meshes|
  {
    if meshes == [] then []
    else MeshTable(meshes[..|meshes| - 1], scene) + [MaterialRequests(meshes[|meshes| - 1], scene)]
  }

  lemma {:induction false} MeshTableAt(meshes: seq<AiMesh>, scene: AiScene, k: nat)
    requires k < |meshes|
    ensures MeshTable(meshes, scene)[k] == MaterialRequests(meshes[k], scene)
    decreases |meshes|
  {
    var n := |meshes| - 1;
    if k < n {
      MeshTableAt(meshes[..n], scene, k);
    }
  }

  /** The entries of table that order lists, one after the other; none for an index past its end. */
  function Gather(order: seq<nat>, table: seq<seq<Request>>): seq<Request>
    decreases |order|
  {
    if order == [] then []
    else
      var k := order[|order| - 1];
      Gather(order[..|order| - 1], table) + (if k < |table| then table[k] else [])
  }

  lemma GatherLast(order: seq<nat>, k: nat, table: seq<seq<Request>>)
    ensures Gather(order + [k], table) == Gather(order, table) + (if k < |table| then table[k] else [])
  {
    assert (order + [k])[..|order|] == order;
  }

  lemma {:induction false} GatherAppend(a: seq<nat>, b: seq<nat>, table: seq<seq<Request>>)
    ensures Gather(a + b, table) == Gather(a, table) + Gather(b, table)
    decreases |b|
  {
    if b == [] {
      assert a + b == a;
    } else {
      var b', k := b[..|b| - 1], b[|b| - 1];
      assert b == b' + [k];
      assert a + b == (a + b') + [k];
      var last := if k < |table| then table[k] else [];
      calc {
        Gather(a + b, table);
      == { GatherLast(a + b', k, table); }
        Gather(a + b', table) + last;
      == { GatherAppend(a, b', table); }
        (Gather(a, table) + Gather(b', table)) + last;
      == { GatherLast(b', k, table); }
        Gather(a, table) + Gather(b, table);
      }
    }
  }

  /** The requests of the imported meshes order lists, mesh after mesh. */
  function OrderRequests(order: seq<nat>, scene: AiScene): seq<Request> {
    Gather(order, MeshTable(scene.meshes, scene))
  }

  /** table holds the requests of each imported mesh of scene. */
  predicate TableFor(table: seq<seq<Request>>, scene: AiScene) {
    |table| == |scene.meshes| && forall k :: 0 <= k < |table| ==> TableAt(table, scene, k)
  }

  predicate TableAt(table: seq<seq<Request>>, scene: AiScene, k: nat) {
    k < |table| && k < |scene.meshes| && table[k] == MaterialRequests(scene.meshes[k], scene)
  }

  lemma MeshTableFor(scene: AiScene)
    ensures TableFor(MeshTable(scene.meshes, scene), scene)
  {
    forall k | 0 <= k < |scene.meshes|
      ensures TableAt(MeshTable(scene.meshes, scene), scene, k)
    {
      MeshTableAt(scene.meshes, scene, k);
    }
  }

  // ---------------------------------------------------------------- meshes

  /** Vertex i of an imported mesh as the model stores it: (0, 0) texture
      coordinates when the mesh has none, no normal when it has none. */
  function VertexAt(mesh: AiMesh, scene: AiScene, i: nat): Vertex
    requires MeshFits(mesh, scene) && i < |mesh.vertices|
  {
    Vertex(mesh.vertices[i],
           if mesh.normals.Some? then Some(mesh.normals.value[i]) else None,
           if mesh.texCoords.Some? then Vec2(mesh.texCoords.value[i].x, mesh.texCoords.value[i].y) else Vec2(0.0, 0.0))
  }

  /** m is what processing the imported mesh gives: one vertex per imported
      vertex, the faces' indices in face order, and one texture per material file. */
  predicate Built(m: Mesh, mesh: AiMesh, scene: AiScene) {
    && MeshFits(mesh, scene)
    && |m.vertices| == |mesh.vertices|
    && (forall i :: 0 <= i < |mesh.vertices| ==> m.vertices[i] == VertexAt(mesh, scene, i))
    && m.indices == FaceIndices(mesh.faces)
    && Paths(m.textures) == Names(MaterialRequests(mesh, scene))
  }

  /** Every texture of ts is an entry of cache. */
  predicate AllIn(ts: seq<Texture>, cache: seq<Texture>) {
    forall k :: 0 <= k < |ts| ==> ts[k] in cache
  }

  /** Entries stay entries while the cache only grows at its end. */
  lemma AllInGrows(ts: seq<Texture>, a: seq<Texture>, b: seq<Texture>)
    requires AllIn(ts, a) && a <= b
    ensures AllIn(ts, b)
  {
    forall k | 0 <= k < |ts|
      ensures ts[k] in b
    {
      var j :| 0 <= j < |a| && a[j] == ts[k];
      assert b[j] == a[j];
    }
  }

  /** ms[k] is the mesh built from the imported mesh that order[k] names. */
  predicate BuiltAt(ms: seq<Mesh>, order: seq<nat>, scene: AiScene, k: nat) {
    k < |ms| && k < |order| && order[k] < |scene.meshes| && Built(ms[k], scene.meshes[order[k]], scene)
  }

  /** ms are the meshes built, one by one, from the imported meshes that order lists. */
  predicate BuiltRun(ms: seq<Mesh>, order: seq<nat>, scene: AiScene) {
    && |ms| == |order|
    && (forall k :: 0 <= k < |order| ==> order[k] < |scene.meshes|)
    && (forall k :: 0 <= k < |order| ==> BuiltAt(ms, order, scene, k))
  }

  /** Building two runs one after the other builds the concatenated run. */
  lemma BuiltRunAppend(ms1: seq<Mesh>, o1: seq<nat>, ms2: seq<Mesh>, o2: seq<nat>, scene: AiScene)
    requires BuiltRun(ms1, o1, scene) && BuiltRun(ms2, o2, scene)
    ensures BuiltRun(ms1 + ms2, o1 + o2, scene)
  {
    forall k | 0 <= k < |o1 + o2|
      ensures (o1 + o2)[k] < |scene.meshes| && BuiltAt(ms1 + ms2, o1 + o2, scene, k)
    {
      if k < |o1| {
        assert BuiltAt(ms1, o1, scene, k);
        assert (o1 + o2)[k] == o1[k] && (ms1 + ms2)[k] == ms1[k];
      } else {
        assert BuiltAt(ms2, o2, scene, k - |o1|);
        assert (o1 + o2)[k] == o2[k - |o1|] && (ms1 + ms2)[k] == ms2[k - |o1|];
      }
    }
  }

  /** Appending the meshes built for child i's subtree extends the run of the first i children. */
  lemma ChildStep(run: seq<Mesh>, sub: seq<Mesh>, node: AiNode, i: nat, scene: AiScene)
    requires i < |node.children|
    requires BuiltRun(run, ChildrenPreOrder(node, i), scene)
    requires BuiltRun(sub, PreOrder(node.children[i]), scene)
    ensures BuiltRun(run + sub, ChildrenPreOrder(node, i + 1), scene)
  {
    BuiltRunAppend(run, ChildrenPreOrder(node, i), sub, PreOrder(node.children[i]), scene);
  }

  /** added holds the meshes built for the subtrees of node's first i children, and loading
      the requests of those subtrees' meshes took the cache from c0 to cache (see Loads). */
  predicate ChildrenLoaded(images: ImageSource, dir: string, node: AiNode, i: nat, scene: AiScene, table: seq<seq<Request>>,
                           added: seq<Mesh>,
                           c0: seq<Texture>, n0: nat, u0: seq<Upload>,
                           cache: seq<Texture>, next: nat, uploads: seq<Upload>) {
    && i <= |node.children|
    && BuiltRun(added, ChildrenPreOrder(node, i), scene)
    && Loads(images, dir, Gather(ChildrenPreOrder(node, i), table), c0, n0, u0, cache, next, uploads)
  }

  /** One more child's subtree, built and loaded, extends the run of the first i children. */
  lemma ChildrenStep(images: ImageSource, dir: string, node: AiNode, i: nat, scene: AiScene, table: seq<seq<Request>>,
                     added: seq<Mesh>, sub: seq<Mesh>,
                     c0: seq<Texture>, n0: nat, u0: seq<Upload>,
                     c1: seq<Texture>, n1: nat, u1: seq<Upload>,
                     c2: seq<Texture>, n2: nat, u2: seq<Upload>)
    requires i < |node.children| && ChildrenLoaded(images, dir, node, i, scene, table, added, c0, n0, u0, c1, n1, u1)
    requires BuiltRun(sub, PreOrder(node.children[i]), scene)
    requires Loads(images, dir, Gather(PreOrder(node.children[i]), table), c1, n1, u1, c2, n2, u2)
    ensures ChildrenLoaded(images, dir, node, i + 1, scene, table, added + sub, c0, n0, u0, c2, n2, u2)
  {
    ChildStep(added, sub, node, i, scene);
    LoadsOrders(images, dir, ChildrenPreOrder(node, i), PreOrder(node.children[i]), table,
                c0, n0, u0, c1, n1, u1, c2, n2, u2);
  }

  /** The node's own meshes followed by all its children's subtrees make its whole pre-order. */
  lemma NodeDone(own: seq<Mesh>, children: seq<Mesh>, node: AiNode, scene: AiScene)
    requires BuiltRun(own, node.meshes, scene)
    requires BuiltRun(children, ChildrenPreOrder(node, |node.children|), scene)
    ensures BuiltRun(own + children, PreOrder(node), scene)
  {
    BuiltRunAppend(own, node.meshes, children, ChildrenPreOrder(node, |node.children|), scene);
  }

  /** Appending the mesh built for order[i] extends the run built for order[..i]. */
  lemma OwnMeshStep(ms: seq<Mesh>, m: Mesh, m0: nat, order: seq<nat>, i: nat, scene: AiScene)
    requires |ms| == m0 + i && i < |order| && BuiltRun(ms[m0..], order[..i], scene)
    requires order[i] < |scene.meshes| && Built(m, scene.meshes[order[i]], scene)
    ensures BuiltRun((ms + [m])[m0..], order[..i + 1], scene)
  {
    assert (ms + [m])[m0..] == ms[m0..] + [m];
    assert order[..i + 1] == order[..i] + [order[i]];
    BuiltRunAppend(ms[m0..], order[..i], [m], [order[i]], scene);
  }

  /** The importer's result can be used: it exists, has a root and is complete. */
  predicate Usable(scene: Option<AiScene>) {
    scene.Some? && scene.value.root.Some? && scene.value.flags & AI_SCENE_FLAGS_INCOMPLETE == 0
  }

  /** The vertices of an imported mesh, converted one by one. */
  method ConvertVertices(mesh: AiMesh, scene: AiScene) returns (vertices: seq<Vertex>)
    requires MeshFits(mesh, scene)
    ensures |vertices| == |mesh.vertices|
    ensures forall k :: 0 <= k < |vertices| ==> vertices[k] == VertexAt(mesh, scene, k)
  {
    vertices := [];
    var i := 0;
    while i < |mesh.vertices|
      invariant 0 <= i <= |mesh.vertices| && |vertices| == i
      invariant forall k :: 0 <= k < i ==> vertices[k] == VertexAt(mesh, scene, k)
    {
      var normal: Option<Vec3> := None;
      if mesh.normals.Some? {
        normal := Some(mesh.normals.value[i]);
      }
      var texCoords: Vec2;
      if mesh.texCoords.Some? {
        texCoords := Vec2(mesh.texCoords.value[i].x, mesh.texCoords.value[i].y);
      } else {
        texCoords := Vec2(0.0, 0.0);
      }
      vertices := vertices + [Vertex(mesh.vertices[i], normal, texCoords)];
      i := i + 1;
    }
  }

  /** The indices of all faces, copied face after face. */
  method FlattenFaces(faces: seq<AiFace>) returns (indices: seq<nat>)
    ensures indices == FaceIndices(faces)
  {
    indices := [];
    var i := 0;
    while i < |faces|
      invariant 0 <= i <= |faces| && indices == FaceIndices(faces[..i])
    {
      var face := faces[i];
      var j := 0;
      while j < |face.indices|
        invariant 0 <= j <= |face.indices| && indices == FaceIndices(faces[..i]) + face.indices[..j]
      {
        indices := indices + [face.indices[j]];
        j := j + 1;
      }
      assert face.indices[..j] == face.indices;
      assert faces[..i + 1][..i] == faces[..i];
      i := i + 1;
    }
    assert faces[..i] == faces;
  }

  /** cache extends cache0, and each entry added has type typeName and the id the
      generator, which started at next0 and now stands at next, handed out for it. */
  predicate Grown(cache0: seq<Texture>, next0: nat, typeName: string, cache: seq<Texture>, next: nat) {
    && cache0 <= cache
    && next == next0 + (|cache| - |cache0|)
    && forall k :: |cache0| <= k < |cache| ==> cache[k].id == next0 + (k - |cache0|) && cache[k].typeName == typeName
  }

  /** Entries grown while looking up names under one type name are typed as requested. */
  lemma GrownTyped(cache0: seq<Texture>, next0: nat, typeName: string, cache: seq<Texture>, next: nat, names: seq<string>)
    requires Grown(cache0, next0, typeName, cache, next)
    requires Paths(cache) == Paths(cache0) + NewNames(Paths(cache0), names)
    ensures Names(Requests(names, typeName)) == names
    ensures forall k :: |cache0| <= k < |cache| ==> TypedAt(cache, Requests(names, typeName), k)
  {
    NamesOfRequests(names, typeName);
    forall k | |cache0| <= k < |cache|
      ensures TypedAt(cache, Requests(names, typeName), k)
    {
      var p := cache[k].path;
      assert p == NewNames(Paths(cache0), names)[k - |cache0|];
      NewNamesMembers(Paths(cache0), names, p);
      FirstTypeUniform(names, typeName, p);
    }
  }

  /** Caching a texture with the next id and the same type keeps the cache grown. */
  lemma GrownSnoc(cache0: seq<Texture>, next0: nat, typeName: string, cache: seq<Texture>, next: nat, t: Texture)
    requires Grown(cache0, next0, typeName, cache, next) && t.id == next && t.typeName == typeName
    ensures Grown(cache0, next0, typeName, cache + [t], next + 1)
  {
    forall k | |cache0| <= k < |cache| + 1
      ensures (cache + [t])[k].id == next0 + (k - |cache0|) && (cache + [t])[k].typeName == typeName
    {
      if k == |cache| {
        assert (cache + [t])[k] == t;
      } else {
        assert (cache + [t])[k] == cache[k];
      }
    }
  }

  /** The cache holds one entry per path, each of a type a mesh can draw, its ids are
      below next and increasing, and every texture of every mesh is one of its entries. */
  predicate CacheValid(cache: seq<Texture>, next: nat, meshes: seq<Mesh>) {
    && Distinct(Paths(cache))
    && (forall k :: 0 <= k < |cache| ==> KnownType(cache, k))
    && (forall k :: 0 <= k < |cache| ==> IdBelow(cache, next, k))
    && (forall j, k :: 0 <= j < k < |cache| ==> IdsIncrease(cache, j, k))
    && (forall i :: 0 <= i < |meshes| ==> MeshCached(meshes, cache, i))
  }

  /** Entry k of the cache is a diffuse or a specular texture. */
  predicate KnownType(cache: seq<Texture>, k: nat) {
    k < |cache| && cache[k].typeName in {DIFFUSE, SPECULAR}
  }

  /** Entry k of the cache has an id the generator, now at next, has handed out. */
  predicate IdBelow(cache: seq<Texture>, next: nat, k: nat) {
    k < |cache| && cache[k].id < next
  }

  /** Entry j of the cache was created before entry k. */
  predicate IdsIncrease(cache: seq<Texture>, j: nat, k: nat) {
    j < k < |cache| && cache[j].id < cache[k].id
  }

  /** Every texture of mesh i is a cache entry. */
  predicate MeshCached(meshes: seq<Mesh>, cache: seq<Texture>, i: nat) {
    i < |meshes| && AllIn(meshes[i].textures, cache)
  }

  /** Caching a texture for a new path under the next id keeps the cache valid. */
  lemma CacheValidSnoc(cache: seq<Texture>, next: nat, meshes: seq<Mesh>, t: Texture)
    requires CacheValid(cache, next, meshes) && t.path !in Paths(cache) && t.id == next
    requires t.typeName in {DIFFUSE, SPECULAR}
    ensures CacheValid(cache + [t], next + 1, meshes)
  {
    var c, next' := cache + [t], next + 1;
    assert Paths(c) == Paths(cache) + [t.path];
    forall k | 0 <= k < |c|
      ensures KnownType(c, k)
    {
      if k < |cache| {
        assert KnownType(cache, k) && c[k] == cache[k];
      }
    }
    forall k | 0 <= k < |c|
      ensures IdBelow(c, next', k)
    {
      if k < |cache| {
        assert IdBelow(cache, next, k) && c[k] == cache[k];
      }
    }
    forall j, k | 0 <= j < k < |c|
      ensures IdsIncrease(c, j, k)
    {
      assert IdBelow(cache, next, j) && c[j] == cache[j];
      if k < |cache| {
        assert IdsIncrease(cache, j, k) && c[k] == cache[k];
      }
    }
    forall i | 0 <= i < |meshes|
      ensures MeshCached(meshes, c, i)
    {
      assert MeshCached(meshes, cache, i);
      AllInGrows(meshes[i].textures, cache, c);
    }
  }

  /** In a valid cache every mesh's textures are diffuse or specular ones. */
  lemma MeshTypesKnown(cache: seq<Texture>, next: nat, meshes: seq<Mesh>, i: nat)
    requires CacheValid(cache, next, meshes) && i < |meshes|
    ensures forall k :: 0 <= k < |meshes[i].textures| ==> meshes[i].textures[k].typeName in {DIFFUSE, SPECULAR}
  {
    assert MeshCached(meshes, cache, i);
    forall k | 0 <= k < |meshes[i].textures|
      ensures meshes[i].textures[k].typeName in {DIFFUSE, SPECULAR}
    {
      var j :| 0 <= j < |cache| && cache[j] == meshes[i].textures[k];
      assert KnownType(cache, j);
    }
  }

  /** A mesh whose textures are all cache entries can join the meshes. */
  lemma CacheValidAddMesh(cache: seq<Texture>, next: nat, meshes: seq<Mesh>, m: Mesh)
    requires CacheValid(cache, next, meshes) && AllIn(m.textures, cache)
    ensures CacheValid(cache, next, meshes + [m])
  {
    forall i | 0 <= i < |meshes| + 1
      ensures MeshCached(meshes + [m], cache, i)
    {
      if i < |meshes| {
        assert MeshCached(meshes, cache, i) && (meshes + [m])[i] == meshes[i];
      }
    }
  }

  /** The uploads that loading the given new cache entries from dir makes. */
  function NewUploads(images: ImageSource, dir: string, entries: seq<Texture>): seq<Upload>
    decreases |entries|
  {
    if entries == [] then []
    else
      var e := entries[|entries| - 1];
      NewUploads(images, dir, entries[..|entries| - 1]) + UploadFor(e.id, images(dir + "/" + e.path))
  }

  /** Loading one more entry makes its upload after the earlier ones. */
  lemma NewUploadsSnoc(images: ImageSource, dir: string, cache0: seq<Texture>, cache: seq<Texture>,
                       uploads0: seq<Upload>, uploads: seq<Upload>, t: Texture)
    requires cache0 <= cache && uploads == uploads0 + NewUploads(images, dir, cache[|cache0|..])
    ensures uploads + UploadFor(t.id, images(dir + "/" + t.path)) == uploads0 + NewUploads(images, dir, (cache + [t])[|cache0|..])
  {
    assert (cache + [t])[|cache0|..] == cache[|cache0|..] + [t];
    assert (cache[|cache0|..] + [t])[..|cache| - |cache0|] == cache[|cache0|..];
  }

  /** Uploads for two runs of new entries, one after the other, are the two runs' uploads. */
  lemma {:induction false} NewUploadsAppend(images: ImageSource, dir: string, a: seq<Texture>, b: seq<Texture>)
    ensures NewUploads(images, dir, a + b) == NewUploads(images, dir, a) + NewUploads(images, dir, b)
    decreases |b|
  {
    if b == [] {
      assert a + b == a;
    } else {
      var b', e := b[..|b| - 1], b[|b| - 1];
      var x := UploadFor(e.id, images(dir + "/" + e.path));
      assert b == b' + [e];
      assert a + b == (a + b') + [e];
      calc {
        NewUploads(images, dir, a + b);
      == { NewUploadsLast(images, dir, a + b', e); }
        NewUploads(images, dir, a + b') + x;
      == { NewUploadsAppend(images, dir, a, b'); }
        (NewUploads(images, dir, a) + NewUploads(images, dir, b')) + x;
      == { NewUploadsLast(images, dir, b', e); }
        NewUploads(images, dir, a) + NewUploads(images, dir, b);
      }
    }
  }

  /** The uploads for entries followed by e are those for the entries, then e's. */
  lemma NewUploadsLast(images: ImageSource, dir: string, entries: seq<Texture>, e: Texture)
    ensures NewUploads(images, dir, entries + [e]) == NewUploads(images, dir, entries) + UploadFor(e.id, images(dir + "/" + e.path))
  {
    assert (entries + [e])[..|entries|] == entries;
  }

  /** Looking up a and then b loads the new names of a, then those of b that neither
      the cache nor a supplied. */
  lemma {:induction false} NewNamesAppend(known: seq<string>, a: seq<string>, b: seq<string>)
    ensures NewNames(known, a + b) == NewNames(known, a) + NewNames(known + NewNames(known, a), b)
    decreases |b|
  {
    if b == [] {
      assert a + b == a;
    } else {
      var b', n := b[..|b| - 1], b[|b| - 1];
      assert a + b == (a + b') + [n];
      assert b == b' + [n];
      NewNamesAppend(known, a, b');
      NewNamesSnoc(known, a + b', n);
      NewNamesSnoc(known + NewNames(known, a), b', n);
    }
  }

  /** Loading the requested texture files `reqs`, in order, took the cache from cache0 to
      cache, the id generator from next0 to next and the uploads from uploads0 to uploads:
      the cache gained exactly the files it lacked, each once, in order of first request,
      under consecutive ids from next0 and the type of the request that first named it,
      and each gained entry was uploaded from dir. */
  predicate Loads(images: ImageSource, dir: string, reqs: seq<Request>,
                  cache0: seq<Texture>, next0: nat, uploads0: seq<Upload>,
                  cache: seq<Texture>, next: nat, uploads: seq<Upload>) {
    && cache0 <= cache
    && Paths(cache) == Paths(cache0) + NewNames(Paths(cache0), Names(reqs))
    && next == next0 + (|cache| - |cache0|)
    && (forall k :: |cache0| <= k < |cache| ==> IdAt(cache, |cache0|, next0, k))
    && (forall k :: |cache0| <= k < |cache| ==> TypedAt(cache, reqs, k))
    && uploads == uploads0 + NewUploads(images, dir, cache[|cache0|..])
  }

  /** Entry k of cache has the type of the first request for its path. */
  predicate TypedAt(cache: seq<Texture>, reqs: seq<Request>, k: nat) {
    k < |cache| && cache[k].typeName == FirstType(reqs, cache[k].path)
  }

  /** Entry k of cache has the id the generator, at next0 for entry start, handed out for it. */
  predicate IdAt(cache: seq<Texture>, start: nat, next0: nat, k: nat) {
    k < |cache| && cache[k].id == next0 + (k - start)
  }

  /** Loading no files changes nothing. */
  lemma LoadsNothing(images: ImageSource, dir: string, cache: seq<Texture>, next: nat, uploads: seq<Upload>)
    ensures Loads(images, dir, [], cache, next, uploads, cache, next, uploads)
  {
    assert cache[|cache|..] == [];
  }

  /** Loading f1 and then f2 is loading f1 + f2. */
  lemma LoadsAppend(images: ImageSource, dir: string, f1: seq<Request>, f2: seq<Request>,
                    c0: seq<Texture>, n0: nat, u0: seq<Upload>,
                    c1: seq<Texture>, n1: nat, u1: seq<Upload>,
                    c2: seq<Texture>, n2: nat, u2: seq<Upload>)
    requires Loads(images, dir, f1, c0, n0, u0, c1, n1, u1)
    requires Loads(images, dir, f2, c1, n1, u1, c2, n2, u2)
    ensures Loads(images, dir, f1 + f2, c0, n0, u0, c2, n2, u2)
  {
    NamesConcat(f1, f2);
    PathsCompose(Paths(c0), Paths(c1), Paths(c2), Names(f1), Names(f2));
    IdsAppend(c0, n0, c1, n1, c2);
    TypesAppend(c0, c1, c2, f1, f2);
    UploadsAppend(images, dir, c0, c1, c2, u0, u1, u2);
  }

  lemma PathsCompose(p0: seq<string>, p1: seq<string>, p2: seq<string>, f1: seq<string>, f2: seq<string>)
    requires p1 == p0 + NewNames(p0, f1) && p2 == p1 + NewNames(p1, f2)
    ensures p2 == p0 + NewNames(p0, f1 + f2)
  {
    NewNamesAppend(p0, f1, f2);
    var a, b := NewNames(p0, f1), NewNames(p1, f2);
    assert (p0 + a) + b == p0 + (a + b);
  }

  /** An entry gained while loading f1 was first requested in f1; one gained while
      loading f2 was not requested in f1 at all, or the cache would have had it. */
  lemma TypesAppend(c0: seq<Texture>, c1: seq<Texture>, c2: seq<Texture>, f1: seq<Request>, f2: seq<Request>)
    requires c0 <= c1 <= c2
    requires Paths(c1) == Paths(c0) + NewNames(Paths(c0), Names(f1))
    requires Paths(c2) == Paths(c1) + NewNames(Paths(c1), Names(f2))
    requires forall k :: |c0| <= k < |c1| ==> TypedAt(c1, f1, k)
    requires forall k :: |c1| <= k < |c2| ==> TypedAt(c2, f2, k)
    ensures forall k :: |c0| <= k < |c2| ==> TypedAt(c2, f1 + f2, k)
  {
    forall k | |c0| <= k < |c2|
      ensures TypedAt(c2, f1 + f2, k)
    {
      var p := c2[k].path;
      FirstTypeAppend(f1, f2, p);
      if k < |c1| {
        assert TypedAt(c1, f1, k) && c2[k] == c1[k];
        assert p == NewNames(Paths(c0), Names(f1))[k - |c0|];
        NewNamesMembers(Paths(c0), Names(f1), p);
      } else {
        assert TypedAt(c2, f2, k);
        assert p == NewNames(Paths(c1), Names(f2))[k - |c1|];
        NewNamesMembers(Paths(c1), Names(f2), p);
        NewNamesMembers(Paths(c0), Names(f1), p);
      }
    }
  }

  lemma IdsAppend(c0: seq<Texture>, n0: nat, c1: seq<Texture>, n1: nat, c2: seq<Texture>)
    requires c0 <= c1 <= c2 && n1 == n0 + (|c1| - |c0|)
    requires forall k :: |c0| <= k < |c1| ==> IdAt(c1, |c0|, n0, k)
    requires forall k :: |c1| <= k < |c2| ==> IdAt(c2, |c1|, n1, k)
    ensures forall k :: |c0| <= k < |c2| ==> IdAt(c2, |c0|, n0, k)
  {
    forall k | |c0| <= k < |c2|
      ensures IdAt(c2, |c0|, n0, k)
    {
      if k < |c1| {
        assert IdAt(c1, |c0|, n0, k);
        assert c2[k] == c1[k];
      } else {
        assert IdAt(c2, |c1|, n1, k);
      }
    }
  }

  lemma UploadsAppend(images: ImageSource, dir: string, c0: seq<Texture>, c1: seq<Texture>, c2: seq<Texture>,
                      u0: seq<Upload>, u1: seq<Upload>, u2: seq<Upload>)
    requires c0 <= c1 <= c2
    requires u1 == u0 + NewUploads(images, dir, c1[|c0|..]) && u2 == u1 + NewUploads(images, dir, c2[|c1|..])
    ensures u2 == u0 + NewUploads(images, dir, c2[|c0|..])
  {
    var x, y := c1[|c0|..], c2[|c1|..];
    calc {
      u0 + NewUploads(images, dir, c2[|c0|..]);
    == { assert c2[|c0|..] == x + y; }
      u0 + NewUploads(images, dir, x + y);
    == { NewUploadsAppend(images, dir, x, y); }
      u0 + (NewUploads(images, dir, x) + NewUploads(images, dir, y));
    ==
      (u0 + NewUploads(images, dir, x)) + NewUploads(images, dir, y);
    }
  }

  lemma AppendAssoc<T>(a: seq<T>, b: seq<T>, c: seq<T>)
    ensures (a + b) + c == a + (b + c)
  {
  }

  /** Loading the requests of order a and then those of order b is loading those of a + b. */
  lemma LoadsOrders(images: ImageSource, dir: string, a: seq<nat>, b: seq<nat>, table: seq<seq<Request>>,
                    c0: seq<Texture>, n0: nat, u0: seq<Upload>,
                    c1: seq<Texture>, n1: nat, u1: seq<Upload>,
                    c2: seq<Texture>, n2: nat, u2: seq<Upload>)
    requires Loads(images, dir, Gather(a, table), c0, n0, u0, c1, n1, u1)
    requires Loads(images, dir, Gather(b, table), c1, n1, u1, c2, n2, u2)
    ensures Loads(images, dir, Gather(a + b, table), c0, n0, u0, c2, n2, u2)
  {
    GatherAppend(a, b, table);
    LoadsAppend(images, dir, Gather(a, table), Gather(b, table), c0, n0, u0, c1, n1, u1, c2, n2, u2);
  }

  /** Loading the requests of mesh order[i] extends a load of those of order[..i]. */
  lemma MeshStep(images: ImageSource, dir: string, order: seq<nat>, i: nat, scene: AiScene, table: seq<seq<Request>>,
                 c0: seq<Texture>, n0: nat, u0: seq<Upload>,
                 c1: seq<Texture>, n1: nat, u1: seq<Upload>,
                 c2: seq<Texture>, n2: nat, u2: seq<Upload>)
    requires i < |order| && order[i] < |scene.meshes| && TableFor(table, scene)
    requires Loads(images, dir, Gather(order[..i], table), c0, n0, u0, c1, n1, u1)
    requires Loads(images, dir, MaterialRequests(scene.meshes[order[i]], scene), c1, n1, u1, c2, n2, u2)
    ensures Loads(images, dir, Gather(order[..i + 1], table), c0, n0, u0, c2, n2, u2)
  {
    assert order[..i + 1] == order[..i] + [order[i]];
    GatherLast(order[..i], order[i], table);
    assert TableAt(table, scene, order[i]);
    LoadsAppend(images, dir, Gather(order[..i], table), MaterialRequests(scene.meshes[order[i]], scene),
                c0, n0, u0, c1, n1, u1, c2, n2, u2);
  }

  /** Loading a material's diffuse files and then its specular ones is loading its requests. */
  lemma MaterialLoads(images: ImageSource, dir: string, mesh: AiMesh, scene: AiScene, diffuse: seq<Texture>, specular: seq<Texture>,
                      c0: seq<Texture>, n0: nat, u0: seq<Upload>,
                      c1: seq<Texture>, n1: nat, u1: seq<Upload>,
                      c2: seq<Texture>, n2: nat, u2: seq<Upload>)
    requires 0 < |scene.materials| && mesh.materialIndex < |scene.materials|
    requires Paths(diffuse) == scene.materials[mesh.materialIndex].diffuse
    requires Paths(specular) == scene.materials[mesh.materialIndex].specular
    requires Loads(images, dir, Requests(scene.materials[mesh.materialIndex].diffuse, DIFFUSE), c0, n0, u0, c1, n1, u1)
    requires Loads(images, dir, Requests(scene.materials[mesh.materialIndex].specular, SPECULAR), c1, n1, u1, c2, n2, u2)
    ensures Paths(diffuse + specular) == Names(MaterialRequests(mesh, scene))
    ensures Loads(images, dir, MaterialRequests(mesh, scene), c0, n0, u0, c2, n2, u2)
  {
    var material := scene.materials[mesh.materialIndex];
    var d, s := Requests(material.diffuse, DIFFUSE), Requests(material.specular, SPECULAR);
    assert MaterialRequests(mesh, scene) == d + s;
    PathsAppend(diffuse, specular);
    NamesConcat(d, s);
    NamesOfRequests(material.diffuse, DIFFUSE);
    NamesOfRequests(material.specular, SPECULAR);
    LoadsAppend(images, dir, d, s, c0, n0, u0, c1, n1, u1, c2, n2, u2);
  }

  /** Loading a material's requests types each entry gained as diffuse when the diffuse
      list names its file, and as specular otherwise. */
  lemma MaterialTypes(images: ImageSource, dir: string, mesh: AiMesh, scene: AiScene,
                      c0: seq<Texture>, n0: nat, u0: seq<Upload>, c: seq<Texture>, n: nat, u: seq<Upload>)
    requires 0 < |scene.materials| && mesh.materialIndex < |scene.materials|
    requires Loads(images, dir, MaterialRequests(mesh, scene), c0, n0, u0, c, n, u)
    ensures forall k :: |c0| <= k < |c| ==>
              c[k].typeName == if c[k].path in scene.materials[mesh.materialIndex].diffuse then DIFFUSE else SPECULAR
  {
    var reqs := MaterialRequests(mesh, scene);
    forall k | |c0| <= k < |c|
      ensures c[k].typeName == if c[k].path in scene.materials[mesh.materialIndex].diffuse then DIFFUSE else SPECULAR
    {
      var p := c[k].path;
      assert TypedAt(c, reqs, k);
      assert p == NewNames(Paths(c0), Names(reqs))[k - |c0|];
      NewNamesMembers(Paths(c0), Names(reqs), p);
      MaterialRequestType(mesh, scene, p);
    }
  }

  /** After loading reqs into an empty cache, every texture of every mesh has the type
      of the first request for its file. */
  lemma TexturesTyped(images: ImageSource, dir: string, reqs: seq<Request>, n0: nat,
                      cache: seq<Texture>, next: nat, uploads: seq<Upload>, meshes: seq<Mesh>)
    requires CacheValid(cache, next, meshes) && Loads(images, dir, reqs, [], n0, [], cache, next, uploads)
    ensures forall i, j :: 0 <= i < |meshes| && 0 <= j < |meshes[i].textures| ==>
              meshes[i].textures[j].typeName == FirstType(reqs, meshes[i].textures[j].path)
  {
    forall i, j | 0 <= i < |meshes| && 0 <= j < |meshes[i].textures|
      ensures meshes[i].textures[j].typeName == FirstType(reqs, meshes[i].textures[j].path)
    {
      assert MeshCached(meshes, cache, i);
      var k :| 0 <= k < |cache| && cache[k] == meshes[i].textures[j];
      assert TypedAt(cache, reqs, k);
    }
  }

  class Model {
    var meshes: seq<Mesh>
    var directory: string
    var texturesLoaded: seq<Texture>
    /** The abstract GL texture-name generator. */
    var nextTextureId: nat
    /** The image uploads made so far, in order. */
    var uploads: seq<Upload>
    /** Stands for the image decoder. */
    const images: ImageSource

    /** The cache holds one entry per path, ids are handed out in increasing order,
        and every texture of every mesh is a cache entry. */
    ghost predicate Valid()
      reads this
    {
      CacheValid(texturesLoaded, nextTextureId, meshes)
    }

    /** Since the cache was cache0, the id generator next0 and the uploads uploads0, every
        entry added is a texture of type typeName with the next id, and each was uploaded. */
    ghost predicate LoadedSince(cache0: seq<Texture>, next0: nat, uploads0: seq<Upload>, typeName: string)
      reads this
    {
      && Grown(cache0, next0, typeName, texturesLoaded, nextTextureId)
      && uploads == uploads0 + NewUploads(images, directory, texturesLoaded[|cache0|..])
    }

    /** Since the cache was cache0, the id generator next0 and the uploads uploads0, the
        requested texture files `reqs` have been loaded from the model's directory (see Loads). */
    ghost predicate LoadedFiles(reqs: seq<Request>, cache0: seq<Texture>, next0: nat, uploads0: seq<Upload>)
      reads this
    {
      Loads(images, directory, reqs, cache0, next0, uploads0, texturesLoaded, nextTextureId, uploads)
    }

    /** Model(path): imports and processes the scene at `path`. */
    constructor (path: string, scene: Option<AiScene>, images: ImageSource)
      requires scene.Some? ==> SceneFits(scene.value)
      ensures Valid() && this.images == images
      ensures !Usable(scene) ==> meshes == [] && directory == "" && texturesLoaded == [] && nextTextureId == FIRST_TEXTURE_ID && uploads == []
      ensures Usable(scene) ==>
                && directory == Directory(path) && BuiltRun(meshes, PreOrder(scene.value.root.value), scene.value)
                && LoadedFiles(OrderRequests(PreOrder(scene.value.root.value), scene.value), [], FIRST_TEXTURE_ID, [])
      ensures Usable(scene) ==>
                forall i, j :: 0 <= i < |meshes| && 0 <= j < |meshes[i].textures| ==>
                  meshes[i].textures[j].typeName
                    == FirstType(OrderRequests(PreOrder(scene.value.root.value), scene.value), meshes[i].textures[j].path)
    {
      meshes := [];
      directory := "";
      texturesLoaded := [];
      nextTextureId := FIRST_TEXTURE_ID;
      uploads := [];
      this.images := images;
      new;
      LoadModel(path, scene);
      assert meshes[0..] == meshes;
      if Usable(scene) {
        TexturesTyped(images, directory, OrderRequests(PreOrder(scene.value.root.value), scene.value), FIRST_TEXTURE_ID,
                      texturesLoaded, nextTextureId, uploads, meshes);
      }
    }

    /** Draws every mesh, in order. */
    method Draw() returns (draws: seq<(seq<Binding>, nat)>)
      requires Valid()
      ensures |draws| == |meshes|
      ensures forall i :: 0 <= i < |meshes| ==> draws[i] == (DrawBindings(meshes[i].textures), |meshes[i].indices|)
      ensures forall i, j, k :: 0 <= i < |meshes| && 0 <= j < k < |draws[i].0| ==> draws[i].0[j].uniform != draws[i].0[k].uniform
    {
      draws := [];
      for i := 0 to |meshes|
        invariant |draws| == i
        invariant forall k :: 0 <= k < i ==> draws[k] == (DrawBindings(meshes[k].textures), |meshes[k].indices|)
      {
        var bindings, count := meshes[i].Draw();
        draws := draws + [(bindings, count)];
      }
      forall i, j, k | 0 <= i < |meshes| && 0 <= j < k < |draws[i].0|
        ensures draws[i].0[j].uniform != draws[i].0[k].uniform
      {
        MeshTypesKnown(texturesLoaded, nextTextureId, meshes, i);
        DrawUniformsDistinct(meshes[i].textures, j, k);
      }
    }

    /** Processes the imported scene; an unusable one leaves the model as it was. */
    method LoadModel(path: string, scene: Option<AiScene>)
      requires Valid() && (scene.Some? ==> SceneFits(scene.value))
      modifies this`meshes, this`directory, this`texturesLoaded, this`nextTextureId, this`uploads
      ensures Valid()
      ensures !Usable(scene) ==>
                && meshes == old(meshes) && directory == old(directory) && texturesLoaded == old(texturesLoaded)
                && nextTextureId == old(nextTextureId) && uploads == old(uploads)
      ensures Usable(scene) ==>
                && directory == Directory(path)
                && old(meshes) <= meshes && old(texturesLoaded) <= texturesLoaded
                && BuiltRun(meshes[|old(meshes)|..], PreOrder(scene.value.root.value), scene.value)
                && LoadedFiles(OrderRequests(PreOrder(scene.value.root.value), scene.value),
                               old(texturesLoaded), old(nextTextureId), old(uploads))
    {
      if !scene.Some? || !scene.value.root.Some? || scene.value.flags & AI_SCENE_FLAGS_INCOMPLETE != 0 {
        return;
      }
      directory := Directory(path);
      MeshTableFor(scene.value);
      var added := ProcessNode(scene.value.root.value, scene.value, MeshTable(scene.value.meshes, scene.value));
      assert meshes[|old(meshes)|..] == added;
    }

    /** Appends the node's own meshes, in order, then those of each child's subtree;
        `added` is what it appends. */
    method ProcessNode(node: AiNode, scene: AiScene, ghost table: seq<seq<Request>>) returns (ghost added: seq<Mesh>)
      requires Valid() && SceneFits(scene) && NodeFits(node, |scene.meshes|) && TableFor(table, scene)
      modifies this`meshes, this`texturesLoaded, this`nextTextureId, this`uploads
      ensures Valid()
      ensures meshes == old(meshes) + added && old(texturesLoaded) <= texturesLoaded
      ensures BuiltRun(added, PreOrder(node), scene)
      ensures LoadedFiles(Gather(PreOrder(node), table), old(texturesLoaded), old(nextTextureId), old(uploads))
      decreases node, 2
    {
      ProcessOwnMeshes(node, scene, table);
      ghost var own := meshes[|old(meshes)|..];
      assert meshes == old(meshes) + own;
      ghost var c1, n1, u1 := texturesLoaded, nextTextureId, uploads;
      var children := ProcessChildren(node, scene, table);
      added := own + children;
      AppendAssoc(old(meshes), own, children);
      NodeDone(own, children, node, scene);
      LoadsOrders(images, directory, node.meshes, ChildrenPreOrder(node, |node.children|), table,
                  old(texturesLoaded), old(nextTextureId), old(uploads), c1, n1, u1, texturesLoaded, nextTextureId, uploads);
    }

    /** The second loop of ProcessNode: appends the meshes of each child's subtree, child
        after child; `added` is what it appends. */
    method ProcessChildren(node: AiNode, scene: AiScene, ghost table: seq<seq<Request>>) returns (ghost added: seq<Mesh>)
      requires Valid() && SceneFits(scene) && NodeFits(node, |scene.meshes|) && TableFor(table, scene)
      modifies this`meshes, this`texturesLoaded, this`nextTextureId, this`uploads
      ensures Valid()
      ensures meshes == old(meshes) + added && old(texturesLoaded) <= texturesLoaded
      ensures BuiltRun(added, ChildrenPreOrder(node, |node.children|), scene)
      ensures LoadedFiles(Gather(ChildrenPreOrder(node, |node.children|), table),
                          old(texturesLoaded), old(nextTextureId), old(uploads))
      decreases node, 1
    {
      added := [];
      LoadsNothing(images, directory, texturesLoaded, nextTextureId, uploads);
      for i := 0 to |node.children|
        invariant Valid() && meshes == old(meshes) + added
        invariant ChildrenLoaded(images, directory, node, i, scene, table, added, old(texturesLoaded), old(nextTextureId), old(uploads),
                                 texturesLoaded, nextTextureId, uploads)
      {
        added := ProcessChild(node, i, scene, table, old(meshes), added, old(texturesLoaded), old(nextTextureId), old(uploads));
      }
    }

    /** One pass of the loop of ProcessChildren: processes child i, whose subtree's meshes
        follow those of the children before it; `added'` is all appended since m0. */
    method ProcessChild(node: AiNode, i: nat, scene: AiScene, ghost table: seq<seq<Request>>,
                        ghost m0: seq<Mesh>, ghost added: seq<Mesh>,
                        ghost c0: seq<Texture>, ghost n0: nat, ghost u0: seq<Upload>)
      returns (ghost added': seq<Mesh>)
      requires Valid() && SceneFits(scene) && NodeFits(node, |scene.meshes|) && TableFor(table, scene) && i < |node.children|
      requires meshes == m0 + added
      requires ChildrenLoaded(images, directory, node, i, scene, table, added, c0, n0, u0, texturesLoaded, nextTextureId, uploads)
      modifies this`meshes, this`texturesLoaded, this`nextTextureId, this`uploads
      ensures Valid() && meshes == m0 + added'
      ensures ChildrenLoaded(images, directory, node, i + 1, scene, table, added', c0, n0, u0, texturesLoaded, nextTextureId, uploads)
      decreases node, 0
    {
      ghost var c1, n1, u1 := texturesLoaded, nextTextureId, uploads;
      var sub := ProcessNode(node.children[i], scene, table);
      ChildrenStep(images, directory, node, i, scene, table, added, sub, c0, n0, u0, c1, n1, u1, texturesLoaded, nextTextureId, uploads);
      AppendAssoc(m0, added, sub);
      added' := added + sub;
    }

    /** The first loop of ProcessNode: appends a mesh built from each mesh the node itself lists. */
    method ProcessOwnMeshes(node: AiNode, scene: AiScene, ghost table: seq<seq<Request>>)
      requires Valid() && SceneFits(scene) && TableFor(table, scene)
      requires forall i :: 0 <= i < |node.meshes| ==> node.meshes[i] < |scene.meshes|
      modifies this`meshes, this`texturesLoaded, this`nextTextureId, this`uploads
      ensures Valid()
      ensures old(meshes) <= meshes && old(texturesLoaded) <= texturesLoaded
      ensures BuiltRun(meshes[|old(meshes)|..], node.meshes, scene)
      ensures LoadedFiles(Gather(node.meshes, table), old(texturesLoaded), old(nextTextureId), old(uploads))
    {
      ghost var m0 := |meshes|;
      ghost var c0, n0, u0 := texturesLoaded, nextTextureId, uploads;
      assert meshes[m0..] == [] && node.meshes[..0] == [];
      LoadsNothing(images, directory, c0, n0, u0);
      var i := 0;
      while i < |node.meshes|
        invariant 0 <= i <= |node.meshes|
        invariant Valid() && old(meshes) <= meshes && old(texturesLoaded) <= texturesLoaded
        invariant |meshes| == m0 + i && BuiltRun(meshes[m0..], node.meshes[..i], scene)
        invariant LoadedFiles(Gather(node.meshes[..i], table), c0, n0, u0)
      {
        var meshIndex := node.meshes[i];
        ghost var c1, n1, u1 := texturesLoaded, nextTextureId, uploads;
        var mesh := ProcessMesh(scene.meshes[meshIndex], scene);
        MeshStep(images, directory, node.meshes, i, scene, table, c0, n0, u0, c1, n1, u1, texturesLoaded, nextTextureId, uploads);
        OwnMeshStep(meshes, mesh, m0, node.meshes, i, scene);
        CacheValidAddMesh(texturesLoaded, nextTextureId, meshes, mesh);
        meshes := meshes + [mesh];
        i := i + 1;
      }
      assert node.meshes[..i] == node.meshes;
    }

    /** Converts one imported mesh: its vertices, its faces' indices and its material's textures. */
    method ProcessMesh(mesh: AiMesh, scene: AiScene) returns (m: Mesh)
      requires Valid() && MeshFits(mesh, scene)
      modifies this`texturesLoaded, this`nextTextureId, this`uploads
      ensures Valid() && fresh(m)
      ensures Built(m, mesh, scene) && AllIn(m.textures, texturesLoaded)
      ensures LoadedFiles(MaterialRequests(mesh, scene), old(texturesLoaded), old(nextTextureId), old(uploads))
      ensures |scene.materials| > 0 ==>
                forall k :: |old(texturesLoaded)| <= k < |texturesLoaded| ==>
                  texturesLoaded[k].typeName
                    == if texturesLoaded[k].path in scene.materials[mesh.materialIndex].diffuse then DIFFUSE else SPECULAR
    {
      ghost var c0, n0, u0 := texturesLoaded, nextTextureId, uploads;
      var vertices := ConvertVertices(mesh, scene);
      var indices := FlattenFaces(mesh.faces);
      var textures: seq<Texture> := [];
      if |scene.materials| > 0 {
        var material := scene.materials[mesh.materialIndex];
        var diffuseTextures := LoadMaterialTextures(material, Diffuse, DIFFUSE);
        ghost var cache1, n1, u1 := texturesLoaded, nextTextureId, uploads;
        var specularTextures := LoadMaterialTextures(material, Specular, SPECULAR);
        AllInGrows(diffuseTextures, cache1, texturesLoaded);
        textures := diffuseTextures + specularTextures;
        MaterialLoads(images, directory, mesh, scene, diffuseTextures, specularTextures,
                      c0, n0, u0, cache1, n1, u1, texturesLoaded, nextTextureId, uploads);
        MaterialTypes(images, directory, mesh, scene, c0, n0, u0, texturesLoaded, nextTextureId, uploads);
      } else {
        LoadsNothing(images, directory, c0, n0, u0);
      }
      m := new Mesh(vertices, indices, textures);
    }

    /** The textures a material lists for one type, loading each file the cache does not hold:
        the cache gains the listed paths it lacked, each once, in order of first mention. */
    method LoadMaterialTextures(material: AiMaterial, textureType: AiTextureType, textureTypeName: string)
      returns (textures: seq<Texture>)
      requires Valid() && textureTypeName in {DIFFUSE, SPECULAR}
      modifies this`texturesLoaded, this`nextTextureId, this`uploads
      ensures Valid()
      ensures Paths(textures) == material.Filenames(textureType) && AllIn(textures, texturesLoaded)
      ensures Paths(texturesLoaded) == Paths(old(texturesLoaded)) + NewNames(Paths(old(texturesLoaded)), material.Filenames(textureType))
      ensures LoadedSince(old(texturesLoaded), old(nextTextureId), old(uploads), textureTypeName)
      ensures LoadedFiles(Requests(material.Filenames(textureType), textureTypeName),
                          old(texturesLoaded), old(nextTextureId), old(uploads))
    {
      var names := material.Filenames(textureType);
      ghost var cache0, next0, uploads0 := texturesLoaded, nextTextureId, uploads;
      ghost var known := Paths(cache0);
      assert texturesLoaded[|cache0|..] == [];
      textures := [];
      var i := 0;
      while i < |names|
        invariant 0 <= i <= |names|
        invariant Valid() && LoadedSince(cache0, next0, uploads0, textureTypeName)
        invariant LookupRun(known, names, i, texturesLoaded, textures)
      {
        var filename := names[i];
        ghost var before := texturesLoaded;
        var texture := LoadTexture(filename, textureTypeName, cache0, next0, uploads0);
        LookupStep(known, names, i, before, texturesLoaded, textures, texture);
        textures := textures + [texture];
        i := i + 1;
      }
      LookupRunDone(known, names, texturesLoaded, textures);
      GrownTyped(cache0, next0, textureTypeName, texturesLoaded, nextTextureId, names);
    }

    /** One pass of the loop of LoadMaterialTextures: the first cache entry whose path
        is filename, or else a new texture loaded from the model's directory and cached. */
    method LoadTexture(filename: string, textureTypeName: string,
                       ghost cache0: seq<Texture>, ghost next0: nat, ghost uploads0: seq<Upload>)
      returns (texture: Texture)
      requires Valid() && LoadedSince(cache0, next0, uploads0, textureTypeName) && textureTypeName in {DIFFUSE, SPECULAR}
      modifies this`texturesLoaded, this`nextTextureId, this`uploads
      ensures Valid() && LoadedSince(cache0, next0, uploads0, textureTypeName)
      ensures texture.path == filename && texture in texturesLoaded && old(texturesLoaded) <= texturesLoaded
      ensures filename in Paths(old(texturesLoaded)) ==>
                && texture in old(texturesLoaded)
                && (forall k :: 0 <= k < |old(texturesLoaded)| && old(texturesLoaded)[k].path == filename ==> texture == old(texturesLoaded)[k])
                && texturesLoaded == old(texturesLoaded) && nextTextureId == old(nextTextureId) && uploads == old(uploads)
      ensures filename !in Paths(old(texturesLoaded)) ==>
                && texture == Texture(old(nextTextureId), textureTypeName, filename)
                && texturesLoaded == old(texturesLoaded) + [texture]
                && nextTextureId == old(nextTextureId) + 1
                && uploads == old(uploads) + UploadFor(texture.id, images(directory + "/" + filename))
    {
      // a linear search of the cache for filename
      var skip := false;
      var j := 0;
      while j < |texturesLoaded|
        invariant 0 <= j <= |texturesLoaded| && !skip
        invariant forall k :: 0 <= k < j ==> texturesLoaded[k].path != filename
      {
        if filename == texturesLoaded[j].path {
          // a hit: the cached entry is the result
          texture := texturesLoaded[j];
          skip := true;
          break;
        }
        j := j + 1;
      }
      if skip {
        assert Paths(texturesLoaded)[j] == filename;
        forall k | 0 <= k < |texturesLoaded| && texturesLoaded[k].path == filename
          ensures texture == texturesLoaded[k]
        {
          CacheEntryByPath(texturesLoaded, texture, k);
        }
      } else {
        texture := CacheNewTexture(filename, textureTypeName, cache0, next0, uploads0);
      }
    }

    /** The miss branch of LoadTexture: loads filename from the model's directory and
        appends it to the cache. */
    method CacheNewTexture(filename: string, textureTypeName: string,
                           ghost cache0: seq<Texture>, ghost next0: nat, ghost uploads0: seq<Upload>)
      returns (texture: Texture)
      requires Valid() && LoadedSince(cache0, next0, uploads0, textureTypeName) && textureTypeName in {DIFFUSE, SPECULAR}
      requires filename !in Paths(texturesLoaded)
      modifies this`texturesLoaded, this`nextTextureId, this`uploads
      ensures Valid() && LoadedSince(cache0, next0, uploads0, textureTypeName)
      ensures texture == Texture(old(nextTextureId), textureTypeName, filename)
      ensures texturesLoaded == old(texturesLoaded) + [texture]
      ensures nextTextureId == old(nextTextureId) + 1
      ensures uploads == old(uploads) + UploadFor(texture.id, images(directory + "/" + filename))
    {
      var path := directory + "/" + filename;
      var id := TextureFromFile(path);
      texture := Texture(id, textureTypeName, filename);
      CacheValidSnoc(texturesLoaded, id, meshes, texture);
      texturesLoaded := texturesLoaded + [texture];
      GrownSnoc(cache0, next0, textureTypeName, old(texturesLoaded), old(nextTextureId), texture);
      NewUploadsSnoc(images, directory, cache0, old(texturesLoaded), uploads0, old(uploads), texture);
    }

    /** Creates a texture name and uploads the decoded image when its channel count is 1, 3 or 4. */
    method TextureFromFile(path: string) returns (id: nat)
      modifies this`nextTextureId, this`uploads
      ensures id == old(nextTextureId) && nextTextureId == id + 1
      ensures uploads == old(uploads) + UploadFor(id, images(path))
    {
      id := nextTextureId;
      nextTextureId := nextTextureId + 1;
      var data := images(path);
      if data.Some? {
        var format: Option<PixelFormat> := None;
        if data.value.channels == 1 {
          format := Some(Red);
        } else if data.value.channels == 3 {
          format := Some(Rgb);
        } else if data.value.channels == 4 {
          format := Some(Rgba);
        }
        if format.Some? {
          uploads := uploads + [Upload(id, format.value, data.value.width, data.value.height)];
        }
      }
    }
  }
}
