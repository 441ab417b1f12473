/**
 * A mesh ready for drawing, and how drawing assigns its textures to texture
 * units and names the sampler uniforms. Buffer setup and the GL calls are not
 * modelled: drawing returns the bindings it would make and the element count
 * of the draw call.
 */
module MeshRender {
  import opened Wrappers
  import opened Geometry
  import Decimal

  /** normal is None when the source mesh had no normals (the field is then left unset). */
  datatype Vertex = Vertex(position: Vec3, normal: Option<Vec3>, texCoords: Vec2)

  datatype Texture = Texture(id: nat, typeName: string, path: string)

  /** One sampler: uniform `uniform` is set to `unit`, and texture `textureId`
      is bound on texture unit `unit`. */
  datatype Binding = Binding(uniform: string, unit: nat, textureId: nat)

  const DIFFUSE: string := "texture_diffuse"
  const SPECULAR: string := "texture_specular"
  const MATERIAL: string := "material."

  function Types(textures: seq<Texture>): (types: seq<string>)
    ensures |types| == |textures| && forall i :: 0 <= i < |textures| ==> types[i] == textures[i].typeName
  {
    seq(|textures|, i requires 0 <= i < |textures| => textures[i].typeName)
  }

  /** How many of the type names are t. */
  function Count(types: seq<string>, t: string): nat {
    multiset(types)[t]
  }

  /** The number suffix for a texture of type t, given the running counters. */
  function Number(t: string, diffuseCount: nat, specularCount: nat): string {
    if t == DIFFUSE then Decimal.ToDecimal(diffuseCount)
    else if t == SPECULAR then Decimal.ToDecimal(specularCount)
    else ""
  }

  /** The binding texture i gets: unit i, and the uniform "material." + its type +
      its number, which counts the textures of its type before it. */
  function BindingAt(textures: seq<Texture>, i: nat): Binding
    requires i < |textures|
  {
    var types := Types(textures);
    Binding(MATERIAL + types[i] + Number(types[i], Count(types[..i], DIFFUSE), Count(types[..i], SPECULAR)),
            i, textures[i].id)
  }

  /** What drawing binds, texture by texture. */
  function DrawBindings(textures: seq<Texture>): (r: seq<Binding>)
    ensures |r| == |textures|
  {
    seq(|textures|, i requires 0 <= i < |textures| => BindingAt(textures, i))
  }

  /** The k-th diffuse texture is numbered k; specular ones have their own count from 0;
      any other type gets no number. */
  lemma DrawNumbering(textures: seq<Texture>, i: nat)
    requires i < |textures|
    ensures var types := Types(textures);
            var u := DrawBindings(textures)[i].uniform;
            && (types[i] == DIFFUSE ==> u == MATERIAL + DIFFUSE + Decimal.ToDecimal(Count(types[..i], DIFFUSE)))
            && (types[i] == SPECULAR ==> u == MATERIAL + SPECULAR + Decimal.ToDecimal(Count(types[..i], SPECULAR)))
            && (types[i] != DIFFUSE && types[i] != SPECULAR ==> u == MATERIAL + types[i])
  {
  }

  /** One more type name counts once more exactly when it is t. */
  lemma CountStep(types: seq<string>, i: nat, t: string)
    requires i < |types|
    ensures Count(types[..i + 1], t) == Count(types[..i], t) + (if types[i] == t then 1 else 0)
  {
    assert types[..i + 1] == types[..i] + [types[i]];
  }

  lemma CountGrows(types: seq<string>, i: nat, j: nat, t: string)
    requires i < j <= |types| && types[i] == t
    ensures Count(types[..i], t) < Count(types[..j], t)
  {
    assert types[..j] == types[..i] + [types[i]] + types[i + 1..j];
  }

  lemma PrefixCancel(p: string, a: string, b: string)
    requires p + a == p + b
    ensures a == b
  {
    assert a == (p + a)[|p|..];
    assert b == (p + b)[|p|..];
  }

  /** When every texture is diffuse or specular, no two of them share a uniform name. */
  lemma DrawUniformsDistinct(textures: seq<Texture>, i: nat, j: nat)
    requires i < j < |textures|
    requires forall k :: 0 <= k < |textures| ==> textures[k].typeName in {DIFFUSE, SPECULAR}
    ensures DrawBindings(textures)[i].uniform != DrawBindings(textures)[j].uniform
  {
    var types := Types(textures);
    DrawNumbering(textures, i);
    DrawNumbering(textures, j);
    if types[i] == types[j] {
      CountGrows(types, i, j, types[i]);
    }
    NumberedUniformsDiffer(types[i], Count(types[..i], types[i]), types[j], Count(types[..j], types[j]));
  }

  /** Two numbered uniforms differ when their types differ, or when one type has two counts. */
  lemma NumberedUniformsDiffer(ti: string, ci: nat, tj: string, cj: nat)
    requires ti in {DIFFUSE, SPECULAR} && tj in {DIFFUSE, SPECULAR}
    requires ti == tj ==> ci != cj
    ensures MATERIAL + ti + Decimal.ToDecimal(ci) != MATERIAL + tj + Decimal.ToDecimal(cj)
  {
    var ui, uj := MATERIAL + ti + Decimal.ToDecimal(ci), MATERIAL + tj + Decimal.ToDecimal(cj);
    if ti == tj {
      Decimal.ToDecimalInjective(ci, cj);
      if ui == uj {
        PrefixCancel(MATERIAL + ti, Decimal.ToDecimal(ci), Decimal.ToDecimal(cj));
      }
    } else {
      // "material.texture_" is 17 characters; then 'd' and 's' differ.
      assert ui[17] != uj[17];
    }
  }

  /** A mesh: its inputs are stored as given and never change afterwards. */
  class Mesh {
    const vertices: seq<Vertex>
    const indices: seq<nat>
    const textures: seq<Texture>

    constructor (inVertices: seq<Vertex>, inIndices: seq<nat>, inTextures: seq<Texture>)
      ensures vertices == inVertices && indices == inIndices && textures == inTextures
    {
      vertices := inVertices;
      indices := inIndices;
      textures := inTextures;
    }

    /** Binds texture i to unit i under its numbered uniform, then draws all indices. */
    method Draw() returns (bindings: seq<Binding>, elementCount: nat)
      ensures bindings == DrawBindings(textures)
      ensures elementCount == |indices|
    {
      ghost var types := Types(textures);
      var diffuseCount: nat := 0;
      var specularCount: nat := 0;
      bindings := [];
      var i := 0;
      while i < |textures|
        invariant 0 <= i <= |textures|
        invariant diffuseCount == Count(types[..i], DIFFUSE) && specularCount == Count(types[..i], SPECULAR)
        invariant |bindings| == i
        invariant forall k :: 0 <= k < i ==> bindings[k] == BindingAt(textures, k)
      {
        var t := textures[i].typeName;
        CountStep(types, i, DIFFUSE);
        CountStep(types, i, SPECULAR);
        var number := "";
        if t == DIFFUSE {
          number := Decimal.ToDecimal(diffuseCount);
          diffuseCount := diffuseCount + 1;
        } else if t == SPECULAR {
          number := Decimal.ToDecimal(specularCount);
          specularCount := specularCount + 1;
        }
        assert number == Number(t, Count(types[..i], DIFFUSE), Count(types[..i], SPECULAR));
        assert diffuseCount == Count(types[..i + 1], DIFFUSE) && specularCount == Count(types[..i + 1], SPECULAR);
        bindings := bindings + [Binding(MATERIAL + t + number, i, textures[i].id)];
        i := i + 1;
      }
      // the counters end at the number of diffuse and of specular textures
      assert diffuseCount == Count(types, DIFFUSE) && specularCount == Count(types, SPECULAR) by {
        assert types[..i] == types;
      }
      elementCount := |indices|;
    }
  }
}
