/**
 * Loading an enemy model: the loaded scene is scaled uniformly to stand 1.7
 * units tall with its feet at y = 0 and its horizontal centre at the origin,
 * then wrapped in a fresh outer group. `dispose` walks the loaded scene and
 * releases every mesh's geometry, materials and their colour maps.
 *
 * Parsing the GLB and measuring the bounding box are done by three.js; here
 * the box and the sequence of nodes the traversal visits are inputs.
 */
module EnemyLoader {
  import opened Wrappers
  import opened SceneGraph

  const TargetHeight: real := 1.7

  /** Floor on the measured height, so a flat model does not divide by zero. */
  const MinHeight: real := 0.01

  /** An axis-aligned box; it is empty when `max` lies below `min` on some axis. */
  datatype Box3 = Box3(min: Vec3, max: Vec3)

  predicate IsEmpty(b: Box3) {
    b.max.x < b.min.x || b.max.y < b.min.y || b.max.z < b.min.z
  }

  /** `box.getSize()`: the zero vector for an empty box. */
  function Size(b: Box3): Vec3 {
    if IsEmpty(b) then Zero
    else Vec3(b.max.x - b.min.x, b.max.y - b.min.y, b.max.z - b.min.z)
  }

  /** `box.getCenter()`: the zero vector for an empty box. */
  function Center(b: Box3): Vec3 {
    if IsEmpty(b) then Zero
    else Vec3((b.min.x + b.max.x) / 2.0, (b.min.y + b.max.y) / 2.0, (b.min.z + b.max.z) / 2.0)
  }

  function Max(a: real, b: real): real {
    if a >= b then a else b
  }

  /** The scale and position given to the loaded scene. */
  datatype Placement = Placement(scale: Vec3, position: Vec3)

  /** `scale = 1.7 / max(size.y, 0.01)`, applied on all three axes; position undoes the centre and the floor. */
  function Normalise(b: Box3): (p: Placement)
    ensures p.scale.x == p.scale.y == p.scale.z > 0.0
  {
    var s := TargetHeight / Max(Size(b).y, MinHeight);
    var c := Center(b);
    Placement(Vec3(s, s, s), Vec3(-c.x * s, -b.min.y * s, -c.z * s))
  }

  /** Where a point of the loaded scene lands once the placement is applied. */
  function Place(p: Placement, v: Vec3): Vec3 {
    Vec3(v.x * p.scale.x + p.position.x, v.y * p.scale.y + p.position.y, v.z * p.scale.z + p.position.z)
  }

  function PlacedBox(p: Placement, b: Box3): Box3 {
    Box3(Place(p, b.min), Place(p, b.max))
  }

  /**
   * The normalised box of a non-empty model: feet on y = 0, centred on x and
   * z, exactly 1.7 tall unless the model is flatter than 0.01, in which case
   * the scale is 170 and the height stays below 1.7.
   */
  lemma NormalisedBox(b: Box3)
    requires !IsEmpty(b)
    ensures var n := PlacedBox(Normalise(b), b);
      && !IsEmpty(n)
      && n.min.y == 0.0
      && Center(n).x == 0.0 && Center(n).z == 0.0
      && (Size(b).y >= MinHeight ==> Size(n).y == TargetHeight)
      && (Size(b).y < MinHeight ==> Normalise(b).scale.y == 170.0 && 0.0 <= Size(n).y < TargetHeight)
  {
  }

  /*
   * The loaded scene's geometries, materials and textures come out of the GLB
   * parser, which is not modelled, and nothing but `dispose` touches them. So
   * they are named by ids rather than modelled as the scene-graph objects the
   * door code builds itself, and what `dispose` does is a log of releases: it
   * keeps their order, and a resource shared by several meshes shows up once
   * per mesh.
   */

  /** One material of a mesh: an id, and the id of its colour map when it has one. */
  datatype MaterialInfo = MaterialInfo(id: nat, colorMap: Option<nat>)

  /** `mesh.material`: one material or an array of them. */
  datatype MaterialSlot = Single(material: MaterialInfo) | Several(materials: seq<MaterialInfo>)

  /** A node visited by `traverse`: a mesh with its geometry id, or any other node. */
  datatype SceneNode = MeshNode(geometry: nat, slot: MaterialSlot) | OtherNode

  /** A `dispose()` call on a GPU resource. */
  datatype Release = GeometryReleased(id: nat) | TextureReleased(id: nat) | MaterialReleased(id: nat)

  function SlotMaterials(slot: MaterialSlot): seq<MaterialInfo> {
    match slot
    case Single(m) => [m]
    case Several(ms) => ms
  }

  /** A material's releases: its colour map first, when present, then the material. */
  function MaterialReleases(m: MaterialInfo): seq<Release> {
    (if m.colorMap.Some? then [TextureReleased(m.colorMap.value)] else []) + [MaterialReleased(m.id)]
  }

  function MaterialsReleases(ms: seq<MaterialInfo>): seq<Release> {
    if ms == [] then [] else MaterialsReleases(ms[..|ms| - 1]) + MaterialReleases(ms[|ms| - 1])
  }

  function NodeReleases(n: SceneNode): seq<Release> {
    match n
    case MeshNode(g, slot) => [GeometryReleased(g)] + MaterialsReleases(SlotMaterials(slot))
    case OtherNode => []
  }

  /** Every release `dispose` makes, in traversal order. */
  function TraversalReleases(nodes: seq<SceneNode>): seq<Release> {
    if nodes == [] then [] else TraversalReleases(nodes[..|nodes| - 1]) + NodeReleases(nodes[|nodes| - 1])
  }

  lemma MaterialsReleasesSnoc(ms: seq<MaterialInfo>, j: nat)
    requires j < |ms|
    ensures MaterialsReleases(ms[..j + 1]) == MaterialsReleases(ms[..j]) + MaterialReleases(ms[j])
  {
    assert ms[..j + 1][..j] == ms[..j];
  }

  lemma TraversalReleasesSnoc(nodes: seq<SceneNode>, i: nat)
    requires i < |nodes|
    ensures TraversalReleases(nodes[..i + 1]) == TraversalReleases(nodes[..i]) + NodeReleases(nodes[i])
  {
    assert nodes[..i + 1][..i] == nodes[..i];
  }

  /** Whether releasing `r` belongs to material `m`. */
  predicate MaterialOwns(m: MaterialInfo, r: Release) {
    r == MaterialReleased(m.id) || (m.colorMap.Some? && r == TextureReleased(m.colorMap.value))
  }

  /** Whether releasing `r` belongs to node `n`: only meshes own resources. */
  predicate NodeOwns(n: SceneNode, r: Release) {
    n.MeshNode? &&
    (r == GeometryReleased(n.geometry) || exists m :: m in SlotMaterials(n.slot) && MaterialOwns(m, r))
  }

  lemma {:induction false} MaterialsReleasedExactly(ms: seq<MaterialInfo>, r: Release)
    ensures r in MaterialsReleases(ms) <==> exists m :: m in ms && MaterialOwns(m, r)
  {
    if ms != [] {
      var init, last := ms[..|ms| - 1], ms[|ms| - 1];
      assert ms == init + [last];
      MaterialsReleasedExactly(init, r);
      assert MaterialsReleases(ms) == MaterialsReleases(init) + MaterialReleases(last);
      assert r in MaterialReleases(last) <==> MaterialOwns(last, r);
      if r in MaterialsReleases(init) {
        var m :| m in init && MaterialOwns(m, r);
        assert m in ms;
      }
      if exists m :: m in ms && MaterialOwns(m, r) {
        var m :| m in ms && MaterialOwns(m, r);
        assert m == last || m in init;
      }
    }
  }

  lemma NodeReleasesExactly(n: SceneNode, r: Release)
    ensures r in NodeReleases(n) <==> NodeOwns(n, r)
  {
    if n.MeshNode? {
      MaterialsReleasedExactly(SlotMaterials(n.slot), r);
    }
  }

  /**
   * `dispose` releases exactly the resources of the meshes it visits: every
   * geometry, every material (single or in an array) and every colour map
   * present, and nothing belonging to a non-mesh node.
   */
  lemma {:induction false} TraversalReleasesExactly(nodes: seq<SceneNode>, r: Release)
    ensures r in TraversalReleases(nodes) <==> exists i :: 0 <= i < |nodes| && NodeOwns(nodes[i], r)
  {
    if nodes != [] {
      var k := |nodes| - 1;
      var init, last := nodes[..k], nodes[k];
      assert nodes == init + [last];
      TraversalReleasesExactly(init, r);
      NodeReleasesExactly(last, r);
      assert TraversalReleases(nodes) == TraversalReleases(init) + NodeReleases(last);
      if r in TraversalReleases(init) {
        var i :| 0 <= i < |init| && NodeOwns(init[i], r);
        assert nodes[i] == init[i];
      }
      if exists i :: 0 <= i < |nodes| && NodeOwns(nodes[i], r) {
        var i :| 0 <= i < |nodes| && NodeOwns(nodes[i], r);
        if i < k {
          assert init[i] == nodes[i];
        }
      }
    }
  }

  /** What `loadEnemyModel` returns: the outer group and the disposal routine over the loaded scene. */
  class EnemyModel {
    const group: Node3D
    const content: Node3D
    /**
     * The nodes `content.traverse` visits, in order. The loaded hierarchy comes
     * from the parser, so this is given with `content` rather than derived from
     * its children.
     */
    const traversal: seq<SceneNode>
    /** The releases made so far, in order. */
    var released: seq<Release>

    constructor (group: Node3D, content: Node3D, traversal: seq<SceneNode>)
      ensures this.group == group && this.content == content && this.traversal == traversal
      ensures released == []
    {
      this.group, this.content, this.traversal := group, content, traversal;
      released := [];
    }

    /** The loop body over a mesh's materials: the colour map, when present, then the material. */
    method ReleaseMaterial(m: MaterialInfo)
      modifies this
      ensures released == old(released) + MaterialReleases(m)
    {
      if m.colorMap.Some? {
        released := released + [TextureReleased(m.colorMap.value)];
      }
      released := released + [MaterialReleased(m.id)];
    }

    /** The body of the `traverse` callback for one node: a mesh's geometry, then each material's map and the material. */
    method ReleaseNode(node: SceneNode)
      modifies this
      ensures released == old(released) + NodeReleases(node)
    {
      if node.MeshNode? {
        released := released + [GeometryReleased(node.geometry)];
        ghost var start := released;
        var materials := SlotMaterials(node.slot);
        var j := 0;
        assert released == start + MaterialsReleases(materials[..j]);
        while j < |materials|
          invariant 0 <= j <= |materials|
          invariant released == start + MaterialsReleases(materials[..j])
        {
          ReleaseMaterial(materials[j]);
          MaterialsReleasesSnoc(materials, j);
          AppendAssoc(start, MaterialsReleases(materials[..j]), MaterialReleases(materials[j]));
          j := j + 1;
        }
        assert materials[..j] == materials;
        AppendAssoc(old(released), [GeometryReleased(node.geometry)], MaterialsReleases(materials));
      }
    }

    /** `dispose()`: visits the nodes in traversal order. */
    method Dispose()
      modifies this
      ensures released == old(released) + TraversalReleases(traversal)
    {
      var i := 0;
      while i < |traversal|
        invariant 0 <= i <= |traversal|
        invariant released == old(released) + TraversalReleases(traversal[..i])
      {
        ghost var done := TraversalReleases(traversal[..i]);
        ReleaseNode(traversal[i]);
        TraversalReleasesSnoc(traversal, i);
        AppendAssoc(old(released), done, NodeReleases(traversal[i]));
        i := i + 1;
      }
      assert traversal[..i] == traversal;
    }
  }

  /** `loadEnemyModel`: normalises the loaded scene and wraps it in a fresh outer group. */
  method LoadEnemyModel(content: Node3D, box: Box3, traversal: seq<SceneNode>) returns (m: EnemyModel)
    modifies content
    ensures fresh(m) && fresh(m.group)
    ensures m.content == content && m.traversal == traversal && m.released == []
    ensures m.group.children == [content]
    ensures m.group.position == Zero && m.group.rotation == Zero && m.group.scale == Unit
    ensures content.scale == Normalise(box).scale && content.position == Normalise(box).position
    ensures content.rotation == old(content.rotation) && content.children == old(content.children)
    ensures content.material == old(content.material)
  {
    var p := Normalise(box);
    content.scale := p.scale;
    content.position := p.position;
    var group := new Node3D.Group();
    group.Add(content);
    m := new EnemyModel(group, content, traversal);
  }
}
