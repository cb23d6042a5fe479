/**
 * The slice of the three.js scene graph that the enemy and door code touches:
 * positioned nodes with an ordered child list, meshes that point at a geometry
 * and a material, and GPU resources whose `dispose` calls are counted.
 */
module SceneGraph {

  datatype Vec3 = Vec3(x: real, y: real, z: real)

  const Zero := Vec3(0.0, 0.0, 0.0)
  const Unit := Vec3(1.0, 1.0, 1.0)

  /** A texture; `disposeCalls` counts calls to its `dispose`. */
  class Texture {
    var disposeCalls: nat

    constructor ()
      ensures disposeCalls == 0
    {
      disposeCalls := 0;
    }

    method Dispose()
      modifies this
      ensures disposeCalls == old(disposeCalls) + 1
    {
      disposeCalls := disposeCalls + 1;
    }
  }

  /** The constructor arguments of a BoxGeometry or a TorusGeometry. */
  datatype Shape =
    | Box(width: real, height: real, depth: real)
    | Torus(radius: real, tube: real, radialSegments: nat, tubularSegments: nat)

  class Geometry {
    const shape: Shape
    var disposeCalls: nat

    constructor (shape: Shape)
      ensures this.shape == shape && disposeCalls == 0
    {
      this.shape := shape;
      disposeCalls := 0;
    }

    method Dispose()
      modifies this
      ensures disposeCalls == old(disposeCalls) + 1
    {
      disposeCalls := disposeCalls + 1;
    }
  }

  /**
   * A MeshStandardMaterial. Colours are 24-bit RGB integers; a fresh material
   * has emissive colour 0x000000 at intensity 1, as in three.js.
   */
  class Material {
    const color: int
    const roughness: real
    const metalness: real
    const colorMap: Texture?
    var emissive: int
    var emissiveIntensity: real
    var disposeCalls: nat

    constructor (color: int, roughness: real, metalness: real, colorMap: Texture?)
      ensures this.color == color && this.roughness == roughness
      ensures this.metalness == metalness && this.colorMap == colorMap
      ensures emissive == 0x000000 && emissiveIntensity == 1.0 && disposeCalls == 0
    {
      this.color, this.roughness, this.metalness, this.colorMap := color, roughness, metalness, colorMap;
      emissive, emissiveIntensity, disposeCalls := 0x000000, 1.0, 0;
    }

    /** `material.clone()`: a new material with the same parameters, sharing the same texture map. */
    constructor Clone(source: Material)
      ensures color == source.color && roughness == source.roughness
      ensures metalness == source.metalness && colorMap == source.colorMap
      ensures emissive == source.emissive && emissiveIntensity == source.emissiveIntensity
      ensures disposeCalls == 0
    {
      color, roughness, metalness, colorMap := source.color, source.roughness, source.metalness, source.colorMap;
      emissive, emissiveIntensity, disposeCalls := source.emissive, source.emissiveIntensity, 0;
    }

    method SetEmissive(rgb: int, intensity: real)
      modifies this
      ensures emissive == rgb && emissiveIntensity == intensity
      ensures disposeCalls == old(disposeCalls)
    {
      emissive, emissiveIntensity := rgb, intensity;
    }

    method Dispose()
      modifies this
      ensures disposeCalls == old(disposeCalls) + 1
      ensures emissive == old(emissive) && emissiveIntensity == old(emissiveIntensity)
    {
      disposeCalls := disposeCalls + 1;
    }
  }

  /** `Array.prototype.indexOf`: the position of the first occurrence of `x`, or -1. */
  function IndexOf<T(==)>(s: seq<T>, x: T): (i: int)
    ensures -1 <= i < |s|
    ensures i == -1 <==> x !in s
    ensures 0 <= i ==> s[i] == x && x !in s[..i]
  {
    if s == [] then -1
    else if s[0] == x then 0
    else
      var j := IndexOf(s[1..], x);
      if j < 0 then -1
      else
        assert s[..j + 1] == [s[0]] + s[1..][..j];
        j + 1
  }

  /** `s` with its first occurrence of `x` taken out (`indexOf`, then `splice(index, 1)`). */
  function RemoveFirst<T(==)>(s: seq<T>, x: T): (r: seq<T>)
    ensures x !in s ==> r == s
    ensures x in s ==> |r| == |s| - 1
    ensures multiset(r) == multiset(s) - multiset{x}
    ensures x in s ==> exists i :: 0 <= i < |s| && s[i] == x && x !in s[..i] && r == s[..i] + s[i + 1..]
  {
    var i := IndexOf(s, x);
    if i < 0 then s
    else
      assert s == s[..i] + [s[i]] + s[i + 1..];
      s[..i] + s[i + 1..]
  }

  /**
   * An Object3D: a Group when it has no geometry, a Mesh otherwise. Rotation is
   * kept as Euler angles.
   */
  class Node3D {
    var position: Vec3
    var rotation: Vec3
    var scale: Vec3
    var children: seq<Node3D>
    const geometry: Geometry?
    var material: Material?

    constructor Group()
      ensures position == Zero && rotation == Zero && scale == Unit
      ensures children == [] && geometry == null && material == null
    {
      position, rotation, scale := Zero, Zero, Unit;
      children, geometry, material := [], null, null;
    }

    constructor Mesh(geometry: Geometry, material: Material)
      ensures position == Zero && rotation == Zero && scale == Unit
      ensures children == [] && this.geometry == geometry && this.material == material
    {
      position, rotation, scale := Zero, Zero, Unit;
      children, this.geometry, this.material := [], geometry, material;
    }

    /**
     * `add(child)`: refused when `child` is this node; otherwise the child is
     * first detached from this node if it already is one of its children, then
     * appended at the end.
     */
    method Add(child: Node3D)
      modifies this
      ensures children == if child == this then old(children)
                          else RemoveFirst(old(children), child) + [child]
      ensures child != this && child !in old(children) ==> children == old(children) + [child]
      ensures position == old(position) && rotation == old(rotation) && scale == old(scale)
      ensures material == old(material)
    {
      if child != this {
        children := RemoveFirst(children, child) + [child];
      }
    }

    /** `remove(child)`: takes out the first occurrence, if any. */
    method Remove(child: Node3D)
      modifies this
      ensures children == RemoveFirst(old(children), child)
      ensures position == old(position) && rotation == old(rotation) && scale == old(scale)
      ensures material == old(material)
    {
      children := RemoveFirst(children, child);
    }
  }
}
