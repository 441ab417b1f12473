/**
 * The part of an imported scene that model loading reads, as plain values
 * (aiScene, aiNode, aiMesh, aiFace, aiMaterial). Importing a file is not
 * modelled: a scene, or its absence, is an input.
 */
module Scene {
  import opened Wrappers
  import opened Geometry

  /** The importer's "scene is incomplete" flag. */
  const AI_SCENE_FLAGS_INCOMPLETE: bv32 := 0x1

  datatype AiFace = AiFace(indices: seq<nat>)

  /** normals and texCoords are None when the mesh has no such stream
      (mNormals null, mTextureCoords[0] null). */
  datatype AiMesh = AiMesh(
    vertices: seq<Vec3>,
    normals: Option<seq<Vec3>>,
    texCoords: Option<seq<Vec3>>,
    faces: seq<AiFace>,
    materialIndex: nat)

  datatype AiTextureType = Diffuse | Specular

  /** The texture file names a material lists, per texture type. */
  datatype AiMaterial = AiMaterial(diffuse: seq<string>, specular: seq<string>) {
    function Filenames(textureType: AiTextureType): seq<string> {
      match textureType
      case Diffuse => diffuse
      case Specular => specular
    }
  }

  datatype AiNode = AiNode(meshes: seq<nat>, children: seq<AiNode>)

  datatype AiScene = AiScene(flags: bv32, root: Option<AiNode>, meshes: seq<AiMesh>, materials: seq<AiMaterial>)

  /** Every per-vertex stream a mesh has is as long as its vertex list, and its
      material index is in range whenever there are materials. */
  predicate MeshFits(m: AiMesh, scene: AiScene) {
    && (m.normals.Some? ==> |m.normals.value| == |m.vertices|)
    && (m.texCoords.Some? ==> |m.texCoords.value| == |m.vertices|)
    && (|scene.materials| > 0 ==> m.materialIndex < |scene.materials|)
  }

  /** Every mesh index in the subtree names a mesh of the scene. */
  predicate NodeFits(node: AiNode, meshCount: nat) {
    && (forall i :: 0 <= i < |node.meshes| ==> node.meshes[i] < meshCount)
    && (forall i :: 0 <= i < |node.children| ==> NodeFits(node.children[i], meshCount))
  }

  /** What the importer guarantees of a scene it returns. */
  predicate SceneFits(scene: AiScene) {
    && (forall i :: 0 <= i < |scene.meshes| ==> MeshFits(scene.meshes[i], scene))
    && (scene.root.Some? ==> NodeFits(scene.root.value, |scene.meshes|))
  }

  /** The indices of all faces, face after face. */
  function FaceIndices(faces: seq<AiFace>): seq<nat>
    decreases |faces|
  {
    if faces == [] then [] else FaceIndices(faces[..|faces| - 1]) + faces[|faces| - 1].indices
  }

  /** The mesh index lists of a node and its descendants in pre-order:
      the node's own meshes, then each child's subtree in order. */
  function PreOrder(node: AiNode): seq<nat>
    decreases node, |node.children| + 1
  {
    node.meshes + ChildrenPreOrder(node, |node.children|)
  }

  /** The pre-order lists of the first n children of node, one after another. */
  function ChildrenPreOrder(node: AiNode, n: nat): seq<nat>
    requires n <= |node.children|
    decreases node, n
  {
    if n == 0 then [] else ChildrenPreOrder(node, n - 1) + PreOrder(node.children[n - 1])
  }

  /** Flattening faces distributes over concatenation, so no index is lost or reordered. */
  lemma {:induction false} FaceIndicesAppend(a: seq<AiFace>, b: seq<AiFace>)
    ensures FaceIndices(a + b) == FaceIndices(a) + FaceIndices(b)
    decreases |b|
  {
    if b != [] {
      var b' := b[..|b| - 1];
      assert (a + b)[..|a + b| - 1] == a + b';
      FaceIndicesAppend(a, b');
    } else {
      assert a + b == a;
    }
  }

  /** The k-th face's indices sit in the flattened list right after those of the faces before it. */
  lemma {:induction false} FaceIndicesAt(faces: seq<AiFace>, k: nat)
    requires k < |faces|
    ensures FaceIndices(faces) == FaceIndices(faces[..k]) + faces[k].indices + FaceIndices(faces[k + 1..])
  {
    assert faces == faces[..k] + [faces[k]] + faces[k + 1..];
    FaceIndicesAppend(faces[..k] + [faces[k]], faces[k + 1..]);
    FaceIndicesAppend(faces[..k], [faces[k]]);
    assert FaceIndices([faces[k]]) == faces[k].indices by {
      assert [faces[k]][..0] == [];
    }
  }

  /** A mesh index is in the pre-order list exactly when the node or one of its
      descendants lists it. */
  lemma {:induction false} PreOrderMembers(node: AiNode, x: nat)
    ensures x in PreOrder(node) <==> x in node.meshes || exists i :: 0 <= i < |node.children| && x in PreOrder(node.children[i])
  {
    ChildrenPreOrderMembers(node, |node.children|, x);
  }

  lemma {:induction false} ChildrenPreOrderMembers(node: AiNode, n: nat, x: nat)
    requires n <= |node.children|
    ensures x in ChildrenPreOrder(node, n) <==> exists i :: 0 <= i < n && x in PreOrder(node.children[i])
    decreases n
  {
    if n > 0 {
      ChildrenPreOrderMembers(node, n - 1, x);
    }
  }

  /** Every index the pre-order list holds names a mesh of the scene. */
  lemma {:induction false} PreOrderFits(node: AiNode, meshCount: nat)
    requires NodeFits(node, meshCount)
    ensures forall k :: 0 <= k < |PreOrder(node)| ==> PreOrder(node)[k] < meshCount
    decreases node, |node.children| + 1
  {
    ChildrenPreOrderFits(node, |node.children|, meshCount);
  }

  lemma {:induction false} ChildrenPreOrderFits(node: AiNode, n: nat, meshCount: nat)
    requires n <= |node.children| && NodeFits(node, meshCount)
    ensures forall k :: 0 <= k < |ChildrenPreOrder(node, n)| ==> ChildrenPreOrder(node, n)[k] < meshCount
    decreases node, n
  {
    if n > 0 {
      ChildrenPreOrderFits(node, n - 1, meshCount);
      PreOrderFits(node.children[n - 1], meshCount);
    }
  }
}
