/**
 * Dungeon doors. Every door shares one texture, one set of geometries and
 * one set of materials, built lazily on first use and torn down together.
 * A door is a group whose first child is a pivot (the part that swings) whose
 * first child is the wooden panel. Locking tints the panel red; a panel still
 * on the shared wood gets a private clone first, so other doors keep theirs.
 *
 * The module-level caches are the fields of one `DoorShared` object.
 */
module DoorMesh {
  import opened SceneGraph

  /** `Math.PI / 2` as a JavaScript double. */
  const HalfPi: real := 1.5707963267948966

  const LockGlow: int := 0xff2222
  const LockIntensity: real := 0.5
  const NoGlow: int := 0x000000

  /** 'ns': the corridor runs north-south (default); 'ew': it runs east-west. */
  datatype Orientation = NS | EW

  class SharedGeometry {
    const panel: Geometry
    const frameSide: Geometry
    const frameTop: Geometry
    const frameThreshold: Geometry
    const ring: Geometry

    constructor ()
      ensures fresh(panel) && fresh(frameSide) && fresh(frameTop) && fresh(frameThreshold) && fresh(ring)
      ensures panel.shape == Box(3.0, 4.5, 0.15) && frameSide.shape == Box(0.2, 4.5, 0.3)
      ensures frameTop.shape == Box(3.4, 0.3, 0.3) && frameThreshold.shape == Box(3.4, 0.1, 0.3)
      ensures ring.shape == Torus(0.1, 0.02, 6, 8)
      ensures panel.disposeCalls == 0 && frameSide.disposeCalls == 0 && frameTop.disposeCalls == 0
      ensures frameThreshold.disposeCalls == 0 && ring.disposeCalls == 0
      ensures Built()
    {
      panel := new Geometry(Box(3.0, 4.5, 0.15));
      frameSide := new Geometry(Box(0.2, 4.5, 0.3));
      frameTop := new Geometry(Box(3.4, 0.3, 0.3));
      frameThreshold := new Geometry(Box(3.4, 0.1, 0.3));
      ring := new Geometry(Torus(0.1, 0.02, 6, 8));
    }

    /** The five shapes of `ensureShared()`, none of them disposed yet. */
    predicate Built()
      reads All()
    {
      && panel.shape == Box(3.0, 4.5, 0.15) && frameSide.shape == Box(0.2, 4.5, 0.3)
      && frameTop.shape == Box(3.4, 0.3, 0.3) && frameThreshold.shape == Box(3.4, 0.1, 0.3)
      && ring.shape == Torus(0.1, 0.02, 6, 8)
      && panel.disposeCalls == 0 && frameSide.disposeCalls == 0 && frameTop.disposeCalls == 0
      && frameThreshold.disposeCalls == 0 && ring.disposeCalls == 0
    }

    function All(): set<Geometry> {
      {panel, frameSide, frameTop, frameThreshold, ring}
    }

    /** No geometry is two of the five. */
    predicate Distinct() {
      panel != frameSide && panel != frameTop && panel != frameThreshold && panel != ring
      && frameSide != frameTop && frameSide != frameThreshold && frameSide != ring
      && frameTop != frameThreshold && frameTop != ring && frameThreshold != ring
    }

    method DisposeAll()
      requires Distinct()
      modifies All()
      ensures forall g :: g in All() ==> g.disposeCalls == old(g.disposeCalls) + 1
    {
      panel.Dispose();
      frameSide.Dispose();
      frameTop.Dispose();
      frameThreshold.Dispose();
      ring.Dispose();
    }
  }

  class SharedMaterials {
    const wood: Material
    const stone: Material
    const iron: Material

    /** Roughness and metalness not given fall back to MeshStandardMaterial's 1.0 and 0.0. */
    constructor (woodMap: Texture)
      ensures fresh(wood) && fresh(stone) && fresh(iron)
      ensures wood.color == 0x5c3317 && wood.roughness == 0.9 && wood.metalness == 0.0 && wood.colorMap == woodMap
      ensures stone.color == 0x555555 && stone.roughness == 0.95 && stone.metalness == 0.0 && stone.colorMap == null
      ensures iron.color == 0x333333 && iron.roughness == 0.3 && iron.metalness == 0.8 && iron.colorMap == null
      ensures wood.emissive == NoGlow && stone.emissive == NoGlow && iron.emissive == NoGlow
      ensures wood.emissiveIntensity == 1.0 && stone.emissiveIntensity == 1.0 && iron.emissiveIntensity == 1.0
      ensures wood.disposeCalls == 0 && stone.disposeCalls == 0 && iron.disposeCalls == 0
      ensures Built(woodMap)
    {
      wood := new Material(0x5c3317, 0.9, 0.0, woodMap);
      stone := new Material(0x555555, 0.95, 0.0, null);
      iron := new Material(0x333333, 0.3, 0.8, null);
    }

    /** The three materials of `ensureShared()`, unlit and not disposed yet, the wood mapped with `woodMap`. */
    predicate Built(woodMap: Texture)
      reads wood, stone, iron
    {
      && wood.color == 0x5c3317 && wood.roughness == 0.9 && wood.metalness == 0.0 && wood.colorMap == woodMap
      && stone.color == 0x555555 && stone.roughness == 0.95 && stone.metalness == 0.0 && stone.colorMap == null
      && iron.color == 0x333333 && iron.roughness == 0.3 && iron.metalness == 0.8 && iron.colorMap == null
      && wood.emissive == NoGlow && stone.emissive == NoGlow && iron.emissive == NoGlow
      && wood.emissiveIntensity == 1.0 && stone.emissiveIntensity == 1.0 && iron.emissiveIntensity == 1.0
      && wood.disposeCalls == 0 && stone.disposeCalls == 0 && iron.disposeCalls == 0
    }

    predicate Distinct() {
      wood != stone && stone != iron && wood != iron
    }

    method DisposeAll()
      requires Distinct()
      modifies wood, stone, iron
      ensures wood.disposeCalls == old(wood.disposeCalls) + 1
      ensures stone.disposeCalls == old(stone.disposeCalls) + 1
      ensures iron.disposeCalls == old(iron.disposeCalls) + 1
      ensures wood.emissive == old(wood.emissive) && wood.emissiveIntensity == old(wood.emissiveIntensity)
      ensures stone.emissive == old(stone.emissive) && stone.emissiveIntensity == old(stone.emissiveIntensity)
      ensures iron.emissive == old(iron.emissive) && iron.emissiveIntensity == old(iron.emissiveIntensity)
    {
      wood.Dispose();
      stone.Dispose();
      iron.Dispose();
    }
  }

  /** The door's pivot: its first child, if any. */
  function PivotOf(door: Node3D): (p: Node3D?)
    reads door
    ensures p == null <==> door.children == []
    ensures p != null ==> p in door.children
  {
    if |door.children| == 0 then null else door.children[0]
  }

  /** The door's panel: the pivot's first child, if any. */
  function PanelOf(door: Node3D): (r: Node3D?)
    reads door, door.children
    ensures r == null <==> PivotOf(door) == null || PivotOf(door).children == []
    ensures r != null ==> PivotOf(door) != null && r in PivotOf(door).children
  {
    var pivot := PivotOf(door);
    if pivot == null || |pivot.children| == 0 then null else pivot.children[0]
  }

  /** The swinging part of a door: the panel, offset so it turns about its edge, and the ring handle. */
  method BuildPivot(geo: SharedGeometry, mat: SharedMaterials) returns (pivot: Node3D)
    ensures fresh(pivot) && pivot.position == Vec3(-1.5, 0.0, 0.0) && |pivot.children| == 2
    ensures pivot.rotation == Zero && pivot.scale == Unit
    ensures var panel := pivot.children[0];
      && fresh(panel) && panel.geometry == geo.panel && panel.material == mat.wood
      && panel.position == Vec3(1.5, 2.25, 0.0) && panel.rotation == Zero && panel.scale == Unit
      && panel.children == []
    ensures var ring := pivot.children[1];
      && fresh(ring) && ring.geometry == geo.ring && ring.material == mat.iron
      && ring.position == Vec3(2.0, 2.25, 0.095) && ring.rotation == Vec3(HalfPi, 0.0, 0.0)
      && ring.scale == Unit && ring.children == []
  {
    pivot := new Node3D.Group();
    AttachMesh(pivot, geo.panel, mat.wood, Vec3(1.5, 4.5 / 2.0, 0.0), Zero);
    AttachMesh(pivot, geo.ring, mat.iron, Vec3(1.5 + 0.5, 4.5 / 2.0, 0.15 / 2.0 + 0.02), Zero.(x := HalfPi));
    pivot.position := Vec3(-1.5, 0.0, 0.0);
  }

  /** A new mesh, placed and turned, appended to `parent`'s children. */
  method AttachMesh(parent: Node3D, geometry: Geometry, material: Material, position: Vec3, rotation: Vec3)
    modifies parent
    ensures |parent.children| == |old(parent.children)| + 1
    ensures parent.children[..|parent.children| - 1] == old(parent.children)
    ensures var piece := parent.children[|parent.children| - 1];
      && fresh(piece) && piece.geometry == geometry && piece.material == material
      && piece.position == position && piece.rotation == rotation && piece.scale == Unit && piece.children == []
    ensures parent.rotation == old(parent.rotation) && parent.position == old(parent.position)
    ensures parent.scale == old(parent.scale) && parent.material == old(parent.material)
  {
    var piece := new Node3D.Mesh(geometry, material);
    piece.position, piece.rotation := position, rotation;
    assert piece != parent && piece !in parent.children;
    parent.Add(piece);
  }

  /** The fixed frame, appended after the pivot: two stone pillars, the top beam and the threshold. */
  method AddFrame(group: Node3D, geo: SharedGeometry, mat: SharedMaterials)
    modifies group
    ensures |group.children| == |old(group.children)| + 4
    ensures group.children[..|old(group.children)|] == old(group.children)
    ensures group.rotation == old(group.rotation) && group.position == old(group.position)
    ensures group.scale == old(group.scale) && group.material == old(group.material)
    ensures var n := |old(group.children)|;
      forall i :: n <= i < n + 4 ==>
        && fresh(group.children[i]) && group.children[i].material == mat.stone
        && group.children[i].rotation == Zero && group.children[i].scale == Unit && group.children[i].children == []
    ensures var n := |old(group.children)|;
      && group.children[n].geometry == geo.frameSide && group.children[n].position == Vec3(-1.6, 2.25, 0.0)
      && group.children[n + 1].geometry == geo.frameSide && group.children[n + 1].position == Vec3(1.6, 2.25, 0.0)
      && group.children[n + 2].geometry == geo.frameTop && group.children[n + 2].position == Vec3(0.0, 4.5, 0.0)
      && group.children[n + 3].geometry == geo.frameThreshold && group.children[n + 3].position == Zero
  {
    AttachMesh(group, geo.frameSide, mat.stone, Vec3(-1.6, 4.5 / 2.0, 0.0), Zero);
    AttachMesh(group, geo.frameSide, mat.stone, Vec3(1.6, 4.5 / 2.0, 0.0), Zero);
    AttachMesh(group, geo.frameTop, mat.stone, Vec3(0.0, 4.5, 0.0), Zero);
    AttachMesh(group, geo.frameThreshold, mat.stone, Zero, Zero);
  }

  class DoorShared {
    var doorTexture: Texture?
    var sharedGeo: SharedGeometry?
    var sharedMat: SharedMaterials?

    ghost predicate Valid()
      reads this
    {
      && (sharedGeo != null ==> sharedGeo.Distinct())
      && (sharedMat != null ==> sharedMat.Distinct())
    }

    /** The caches before any door is built. */
    constructor ()
      ensures Valid() && doorTexture == null && sharedGeo == null && sharedMat == null
    {
      doorTexture, sharedGeo, sharedMat := null, null, null;
    }

    /** `getDoorTexture()`: builds the texture when the cache is empty, else returns the cached one. */
    method GetDoorTexture() returns (t: Texture)
      requires Valid()
      modifies this
      ensures Valid() && doorTexture == t
      ensures old(doorTexture) != null ==> t == old(doorTexture)
      ensures old(doorTexture) == null ==> fresh(t) && t.disposeCalls == 0
      ensures sharedGeo == old(sharedGeo) && sharedMat == old(sharedMat)
    {
      if doorTexture == null {
        doorTexture := new Texture();
      }
      t := doorTexture;
    }

    /** What `ensureShared()` promises: both caches present, kept when they were, fresh when they were not. */
    twostate predicate BuiltLazily()
      reads this, doorTexture
      reads if sharedGeo == null then {} else sharedGeo.All()
      reads if sharedMat == null then {} else {sharedMat.wood, sharedMat.stone, sharedMat.iron}
    {
      && sharedGeo != null && sharedMat != null
      && (old(sharedGeo) != null ==> sharedGeo == old(sharedGeo))
      && (old(sharedGeo) == null ==> fresh(sharedGeo) && fresh(sharedGeo.All()) && sharedGeo.Built())
      && (old(sharedMat) != null ==> sharedMat == old(sharedMat) && doorTexture == old(doorTexture))
      && (old(sharedMat) == null ==>
            && fresh(sharedMat) && fresh(sharedMat.wood) && fresh(sharedMat.stone) && fresh(sharedMat.iron)
            && doorTexture != null && sharedMat.Built(doorTexture)
            && (old(doorTexture) != null ==> doorTexture == old(doorTexture))
            && (old(doorTexture) == null ==> fresh(doorTexture) && doorTexture.disposeCalls == 0))
    }

    /** `ensureShared()`. */
    method EnsureShared()
      requires Valid()
      modifies this
      ensures Valid() && BuiltLazily()
    {
      if sharedGeo == null {
        sharedGeo := new SharedGeometry();
      }
      if sharedMat == null {
        var t := GetDoorTexture();
        sharedMat := new SharedMaterials(t);
      }
    }

    /**
     * `createDoorModel(orientation)`: the group holds the pivot first and
     * then the four frame pieces; the pivot holds the panel (shared wood)
     * and the ring handle (shared iron).
     */
    method CreateDoorModel(orientation: Orientation) returns (group: Node3D)
      requires Valid()
      modifies this
      ensures Valid() && BuiltLazily()
      ensures fresh(group) && |group.children| == 5
      ensures group.rotation == if orientation == EW then Vec3(0.0, HalfPi, 0.0) else Zero
      ensures group.position == Zero && group.scale == Unit
      ensures var pivot := group.children[0];
        && fresh(pivot) && pivot.position == Vec3(-1.5, 0.0, 0.0) && |pivot.children| == 2
        && PivotOf(group) == pivot
      ensures var panel := group.children[0].children[0];
        && fresh(panel) && PanelOf(group) == panel
        && panel.geometry == sharedGeo.panel && panel.material == sharedMat.wood
        && panel.position == Vec3(1.5, 2.25, 0.0) && panel.children == []
      ensures var ring := group.children[0].children[1];
        && fresh(ring) && ring.geometry == sharedGeo.ring && ring.material == sharedMat.iron
        && ring.position == Vec3(2.0, 2.25, 0.095) && ring.rotation == Vec3(HalfPi, 0.0, 0.0)
        && ring.scale == Unit && ring.children == []
      ensures group.children[0].rotation == Zero && group.children[0].children[0].rotation == Zero
      ensures group.children[0].scale == Unit && group.children[0].children[0].scale == Unit
      ensures forall i :: 1 <= i < 5 ==>
        && fresh(group.children[i]) && group.children[i].material == sharedMat.stone
        && group.children[i].rotation == Zero && group.children[i].scale == Unit && group.children[i].children == []
      ensures group.children[1].geometry == sharedGeo.frameSide && group.children[1].position == Vec3(-1.6, 2.25, 0.0)
      ensures group.children[2].geometry == sharedGeo.frameSide && group.children[2].position == Vec3(1.6, 2.25, 0.0)
      ensures group.children[3].geometry == sharedGeo.frameTop && group.children[3].position == Vec3(0.0, 4.5, 0.0)
      ensures group.children[4].geometry == sharedGeo.frameThreshold && group.children[4].position == Zero
    {
      EnsureShared();
      group := new Node3D.Group();
      var pivot := BuildPivot(sharedGeo, sharedMat);
      group.Add(pivot);
      AddFrame(group, sharedGeo, sharedMat);
      if orientation == EW {
        group.rotation := group.rotation.(y := HalfPi);
      }
    }

    /**
     * `setDoorLocked(door, locked)`. Returns whether it threw: `setDoorLocked`
     * throws when the panel slot holds a node without a material.
     */
    method SetDoorLocked(door: Node3D, locked: bool) returns (threw: bool)
      modifies PanelOf(door)
      modifies if PanelOf(door) == null || PanelOf(door).material == null then {}
               else {PanelOf(door).material}
      ensures door.children == old(door.children)
      ensures PanelOf(door) == old(PanelOf(door))
      ensures old(PanelOf(door)) != null ==>
        var p := old(PanelOf(door));
        && p.position == old(p.position) && p.rotation == old(p.rotation)
        && p.scale == old(p.scale) && p.children == old(p.children)
      ensures old(PanelOf(door)) == null ==> !threw
      ensures old(PanelOf(door)) != null && old(PanelOf(door).material) == null ==>
        threw && PanelOf(door).material == null
      ensures !threw && old(PanelOf(door)) != null ==> PanelOf(door).material != null
      ensures old(PanelOf(door)) != null && old(PanelOf(door).material) != null ==>
        var panel, m := old(PanelOf(door)), old(PanelOf(door).material);
        && !threw
        && (locked && sharedMat != null && m == sharedMat.wood ==>
              && fresh(panel.material) && panel.material.disposeCalls == 0
              && panel.material.emissive == LockGlow && panel.material.emissiveIntensity == LockIntensity
              && panel.material.color == m.color && panel.material.colorMap == m.colorMap
              && panel.material.roughness == m.roughness && panel.material.metalness == m.metalness
              && unchanged(m))
        && (locked && (sharedMat == null || m != sharedMat.wood) ==>
              panel.material == m && m.emissive == LockGlow && m.emissiveIntensity == LockIntensity)
        && (!locked ==> panel.material == m && m.emissive == NoGlow && m.emissiveIntensity == 0.0)
        && m.disposeCalls == old(m.disposeCalls)
    {
      threw := false;
      if |door.children| == 0 {
        return;
      }
      var pivot := door.children[0];
      if |pivot.children| == 0 {
        return;
      }
      var panel := pivot.children[0];
      var mat := panel.material;
      if mat == null {
        threw := true;
        return;
      }
      if locked {
        if sharedMat != null && mat == sharedMat.wood {
          var cloned := new Material.Clone(mat);
          panel.material := cloned;
          cloned.SetEmissive(LockGlow, LockIntensity);
        } else {
          mat.SetEmissive(LockGlow, LockIntensity);
        }
      } else {
        mat.SetEmissive(NoGlow, 0.0);
      }
    }

    /** `disposeDoorShared()`: disposes whatever is cached, once each, and empties all three caches. */
    method DisposeDoorShared()
      requires Valid()
      modifies this
      modifies if sharedGeo == null then {} else sharedGeo.All()
      modifies if sharedMat == null then {} else {sharedMat.wood, sharedMat.stone, sharedMat.iron}
      modifies if doorTexture == null then {} else {doorTexture}
      ensures Valid() && doorTexture == null && sharedGeo == null && sharedMat == null
      ensures old(sharedGeo) != null ==>
        forall g :: g in old(sharedGeo).All() ==> g.disposeCalls == old(g.disposeCalls) + 1
      ensures old(sharedMat) != null ==>
        && old(sharedMat).wood.disposeCalls == old(sharedMat.wood.disposeCalls) + 1
        && old(sharedMat).stone.disposeCalls == old(sharedMat.stone.disposeCalls) + 1
        && old(sharedMat).iron.disposeCalls == old(sharedMat.iron.disposeCalls) + 1
      ensures old(sharedMat) != null ==>
        var m := old(sharedMat);
        && m.wood.emissive == old(m.wood.emissive) && m.wood.emissiveIntensity == old(m.wood.emissiveIntensity)
        && m.stone.emissive == old(m.stone.emissive) && m.stone.emissiveIntensity == old(m.stone.emissiveIntensity)
        && m.iron.emissive == old(m.iron.emissive) && m.iron.emissiveIntensity == old(m.iron.emissiveIntensity)
      ensures old(doorTexture) != null ==> old(doorTexture).disposeCalls == old(doorTexture.disposeCalls) + 1
    {
      if sharedGeo != null {
        sharedGeo.DisposeAll();
        sharedGeo := null;
      }
      if sharedMat != null {
        sharedMat.DisposeAll();
        sharedMat := null;
      }
      if doorTexture != null {
        doorTexture.Dispose();
        doorTexture := null;
      }
    }
  }

  /**
   * Two doors built from the same caches start on one wood material; locking
   * both gives each its own clone, and unlocking one leaves the other's glow.
   */
  method TwoDoorsLockIndependently()
  {
    var shared := new DoorShared();
    var a, b := BuildPair(shared);
    var wood := shared.sharedMat.wood;
    var woodGlow := wood.emissive;

    var threwA := shared.SetDoorLocked(a, true);
    var threwB := shared.SetDoorLocked(b, true);
    var ma, mb := PanelOf(a).material, PanelOf(b).material;
    assert ma != mb && ma != wood && mb != wood;
    assert wood.emissive == woodGlow;

    var threwUnlock := shared.SetDoorLocked(a, false);
    assert ma.emissive == NoGlow && ma.emissiveIntensity == 0.0;
    assert mb.emissive == LockGlow && mb.emissiveIntensity == LockIntensity;
  }

  /** Two doors from the same caches: distinct new panels on the one shared wood material. */
  method BuildPair(shared: DoorShared) returns (a: Node3D, b: Node3D)
    requires shared.Valid() && shared.sharedMat == null
    modifies shared
    ensures shared.Valid() && shared.sharedMat != null && fresh(shared.sharedMat.wood)
    ensures PanelOf(a) != null && PanelOf(b) != null && PanelOf(a) != PanelOf(b)
    ensures fresh(PanelOf(a)) && fresh(PanelOf(b))
    ensures PanelOf(a) != b && PanelOf(a) !in b.children && PanelOf(b) != a && PanelOf(b) !in a.children
    ensures PanelOf(a).material == shared.sharedMat.wood && PanelOf(b).material == shared.sharedMat.wood
  {
    a := shared.CreateDoorModel(NS);
    b := shared.CreateDoorModel(EW);
  }

  /**
   * The first door built: caches with the fixed dimensions and unlit, undisposed
   * materials; every piece unscaled and childless, the frame unturned.
   */
  method FirstDoorIsPlain()
  {
    var shared := new DoorShared();
    var g := shared.CreateDoorModel(NS);
    var geo, mat := shared.sharedGeo, shared.sharedMat;
    assert mat.stone.color == 0x555555 && mat.wood.disposeCalls == 0;
    assert geo.frameSide.shape == Box(0.2, 4.5, 0.3);
    assert PanelOf(g).material.emissive == NoGlow;
    assert g.children[0].scale == Unit && g.children[0].children[1].scale == Unit;
    assert g.children[1].rotation == Zero && g.children[2].children == [];

    var threw := shared.SetDoorLocked(g, true);
    assert PanelOf(g).material.disposeCalls == 0;
    var wood := mat.wood;
    shared.DisposeDoorShared();
    assert wood.emissive == NoGlow && wood.disposeCalls == 1;
  }

  /** Tearing the caches down and building again yields new shared objects. */
  method RebuildAfterDispose()
  {
    var shared := new DoorShared();
    var door := shared.CreateDoorModel(NS);
    var wood := shared.sharedMat.wood;
    shared.DisposeDoorShared();
    shared.EnsureShared();
    assert shared.sharedMat.wood != wood;
  }
}
