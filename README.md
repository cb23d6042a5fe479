# Enemy forge and dungeon doors, modelled in Dafny

This project models the core of a browser dungeon crawler whose enemies are
drawn by the player. A sketch goes through a small backend proxy that turns
it into a 3D model. Each loaded enemy is then driven by a per-instance
animation state machine and a per-frame controller.

The modelled parts, one Dafny module each:

- `EnemyStateMachine` (`enemy_state_machine.dfy`): the four-state animation
  machine (`idle`, `walk`, `attack`, `death`). It holds the cached `isDead`
  flag, the action set-up, the cross-fading `transition`, and the `finished`
  listener that sends an attack back to idle. The three.js animation mixer is
  a small `Mixer` class that records the calls made on it.
- `EnemyController` (`enemy_controller.dfy`): one enemy instance. It covers
  spawning at depth `spawnZ`, the per-frame policy (detect within 20, attack
  within 2, walk at 1.5 units per second) and disposal.
- `EnemyLoader` (`enemy_loader.dfy`): scaling the loaded scene to 1.7 units
  tall with its feet on the ground and centred horizontally. It also covers
  the disposal walk that releases every mesh's geometry, materials and colour
  maps.
- `DoorMesh` (`door_mesh.dfy`): the lazily built caches shared by all doors,
  building a door, locking and unlocking a door, and tearing the caches down.
  The clone-on-first-lock rule keeps one door's glow off the others.
- `SubtypeBackfill` (`subtype_backfill.dfy`): the start-up `UPDATE`
  statements that give rows still on a default subtype the subtype named by
  the first keyword group found in their lower-cased name.
- `ForgeRoute` (`forge_route.dfy`): the server's `POST /forge-enemy`
  handler. It covers validation order, stripping the PNG `data:` URL prefix
  (RFC 2397, section 3), the three pipeline steps and the status and error
  mapping.
- `EnemyApi` (`enemy_api.dfy`): the client's `forgeEnemy`. It covers the
  order of progress reports and how the error message is chosen.
- `SceneGraph` (`scene_graph.dfy`) and `Wrappers` (`wrappers.dfy`): the
  three.js objects the core touches (nodes, meshes, materials, geometries,
  textures) and an `Option` type.

Stateful code is modelled as classes and methods. The state machine's
`Transition`, `OnFinished` and `Update`, the enemy's `Update`, the model's
`Dispose` and the backfill's `Backfill` are each proved against a pure
function (`Step`, `AfterFinished`, `AfterEvents`, `Tick`, `TraversalReleases`
and `BackfillTable`), and the properties are proved about those functions.
The door methods, `LoadEnemyModel`, `HandleForgeEnemy` and `ForgeEnemy` state
their effects directly in their postconditions.
Remote services, file parsing and measurement are inputs to the model.

## Model

| member | source | states |
|---|---|---|
| EnemyStateMachine.Step | src/enemy/enemyStateMachine.ts:42-55 | A refused request changes nothing. After `death` every request except `death` is refused, and a request for the current state is refused. An accepted request moves to the target. `isDead` stays equal to "state is death". |
| EnemyStateMachine.AfterEvents | src/enemy/enemyStateMachine.ts:35-40 | `finished` notifications only ever lead to `idle`. Without an attack notification nothing changes, and a dead machine never changes. A live machine that receives an attack notification ends in `idle`, alive. |
| EnemyStateMachine.KilledStaysDead | src/enemy/enemyStateMachine.ts:42-55 | Once `transition('death')` has run, no sequence of later requests leaves `death` or clears `isDead`. |
| EnemyStateMachine.TransitionsKeepConsistent | src/enemy/enemyStateMachine.ts:30-55 | From a consistent view (initially idle and alive), any sequence of requests keeps `isDead` equal to "state is death". A dead machine ignores them all. |
| EnemyStateMachine.ReplayAppend | src/enemy/enemyStateMachine.ts:46-54 | Replaying two runs of mixer calls one after the other gives the same started actions and last cross-fade as replaying them joined. |
| EnemyStateMachine.TransitionReplay | src/enemy/enemyStateMachine.ts:42-55 | An accepted transition starts its target and leaves a 0.3 s warped cross-fade from the old state. A refused one starts nothing and leaves the cross-fade as it was. |
| EnemyStateMachine.ConfigureActions | src/enemy/enemyStateMachine.ts:16-28 | Idle and walk loop forever. Attack and death play once and clamp on their last frame. Nothing is played. |
| EnemyStateMachine.StateMachine.constructor | src/enemy/enemyStateMachine.ts:12-33 | The machine starts idle and alive with the actions configured. Of the reset, play and cross-fade calls, the only one made is playing `idle`. |
| EnemyStateMachine.StateMachine.Transition | src/enemy/enemyStateMachine.ts:42-55 | The new view is `Step` of the old one. The mixer sees reset, play, then a 0.3 s warped cross-fade from the old action, or nothing when the request is refused. |
| EnemyStateMachine.StateMachine.OnFinished | src/enemy/enemyStateMachine.ts:35-40 | The view becomes `AfterFinished`. Only an attack notification on a live machine requests `idle` and makes mixer calls; the playing set and cross-fade are what those calls leave. |
| EnemyStateMachine.StateMachine.Update | src/enemy/enemyStateMachine.ts:57-59 | The mixer advances by `delta`. The notifications raised during that advance are handled in order, and the result is `AfterEvents`; the playing set and cross-fade are what the listener's calls leave. |
| EnemyStateMachine.StateMachine.HandleFinished | src/enemy/enemyStateMachine.ts:35-40 | Handling a run of notifications in order gives `AfterEvents` and logs exactly `EventOps`, with the clock and loop settings untouched. |
| EnemyController.Decide | src/enemy/enemyController.ts:28-45 | A dead enemy, or one attacking or dying, makes no request and does not move. An idle enemy requests `walk` exactly when the distance is below 20. A walking enemy steps 1.5·delta along +z. It requests `attack` exactly below 2 and `idle` exactly above 20, and makes no request in between. |
| EnemyController.Tick | src/enemy/enemyController.ts:26-47 | One frame keeps `isDead` equal to "state is death". A dead enemy is left exactly as it was. |
| EnemyController.TickReplay | src/enemy/enemyController.ts:26-47 | A frame's mixer calls are the advance, the listener's calls and the policy's request, in that order, and the actions they start and the cross-fade they leave follow from those parts. |
| EnemyController.AttackHolds | src/enemy/enemyController.ts:32-45 | An attacking enemy with no clip finishing stays where it is, in `attack`, for any number of frames. |
| EnemyController.WalkReachesAttack | src/enemy/enemyController.ts:38-44 | A walking enemy with the camera ahead of it within 20, and a step no longer than 2, is attacking after k + 1 frames once k steps cover the gap. |
| EnemyController.WalkCloses | src/enemy/enemyController.ts:38-45 | Between the two ranges, with the camera ahead, a walking enemy keeps walking and closes the gap by exactly one step. |
| EnemyController.WalkRecedesFromCameraBehind | src/enemy/enemyController.ts:39 | With the camera behind it, a walking enemy moves one step further away each frame. |
| EnemyController.EnemyInstance.constructor | src/enemy/enemyController.ts:16-24 | The instance gets a new state machine, idle and alive; the mixer makes no cross-fade and its clock does not move. The model's group is placed at (0, 0, spawnZ) with its rotation, scale, material and children kept, and becomes the scene's last child. The scene's own placement and material are kept. |
| EnemyController.EnemyInstance.Steer | src/enemy/enemyController.ts:28-46 | On the view left by the machine's update, the enemy moves and requests exactly as `Decide` says. The mixer sees only that request's calls, which start the target and set the cross-fade, and its clock and loop settings do not change. Only the group's z changes; its x, y, rotation, scale, material and children are kept. |
| EnemyController.EnemyInstance.Update | src/enemy/enemyController.ts:26-47 | The enemy's state and depth after a frame are `Tick` of the old ones. The mixer sees exactly `TickOps`, its playing set and last cross-fade are what those calls leave, and its clock moves by `delta`. Only the group's z changes. |
| EnemyController.EnemyInstance.Dispose | src/enemy/enemyController.ts:49-52 | The group is removed from the scene, whose placement and material are kept, then every resource the model's traversal visits is released. |
| SceneGraph.RemoveFirst | src/enemy/enemyController.ts:50 | When the child is present, its first occurrence is cut out and the children before and after it keep their order. The result is the same list when the child is absent. |
| SceneGraph.IndexOf | src/enemy/enemyController.ts:50 | The index is -1 exactly when the child is absent. Otherwise it holds the child, with no earlier occurrence. |
| SceneGraph.Node3D.Add | src/enemy/enemyController.ts:24 | Adding a node to itself changes nothing. Otherwise the child's first occurrence, if any, is taken out and the child is appended at the end. A child not yet present is simply appended. The node's placement and material are kept. |
| SceneGraph.Node3D.Remove | src/enemy/enemyController.ts:50 | `scene.remove` takes out the child's first occurrence and keeps the node's placement and material. |
| EnemyLoader.Normalise | src/enemy/enemyLoader.ts:15-23 | The scale is the same positive number on all three axes. |
| EnemyLoader.NormalisedBox | src/enemy/enemyLoader.ts:14-23 | After placement the box of a non-empty model has its feet on y = 0 and is centred on x and z. It is 1.7 tall unless flatter than 0.01. In that case the scale is 170 and the height stays below 1.7. |
| EnemyLoader.LoadEnemyModel | src/enemy/enemyLoader.ts:9-43 | The loaded scene gets the normalised scale and position. It is wrapped as the only child of a fresh, untransformed group. |
| EnemyLoader.MaterialsReleasedExactly | src/enemy/enemyLoader.ts:35-38 | The releases for a list of materials are exactly each material and each colour map present. |
| EnemyLoader.NodeReleasesExactly | src/enemy/enemyLoader.ts:29-39 | A mesh releases exactly its geometry, its materials (one or an array) and their maps. Any other node releases nothing. |
| EnemyLoader.TraversalReleasesExactly | src/enemy/enemyLoader.ts:28-41 | `dispose` releases a resource exactly when some visited mesh owns it. |
| EnemyLoader.EnemyModel.ReleaseMaterial | src/enemy/enemyLoader.ts:36-37 | A material's colour map, when present, is released before the material itself, and nothing else is released. |
| EnemyLoader.EnemyModel.ReleaseNode | src/enemy/enemyLoader.ts:30-39 | A mesh releases its geometry, then each of its materials in order. Any other node releases nothing. |
| EnemyLoader.EnemyModel.Dispose | src/enemy/enemyLoader.ts:28-41 | The nested loops append exactly `TraversalReleases` of the traversal, in order: geometry, then each material's map before the material. |
| DoorMesh.SharedGeometry.constructor | src/dungeon/doorMesh.ts:32-38 | Five fresh, undisposed geometries with the panel, pillar, beam, threshold and ring dimensions (`Built`). |
| DoorMesh.SharedMaterials.constructor | src/dungeon/doorMesh.ts:41-56 | Fresh, undisposed wood, stone and iron materials with their colours, roughness and metalness, unlit (emissive 0 at intensity 1). Only the wood carries the door texture (`Built`). |
| DoorMesh.DoorShared.constructor | src/dungeon/doorMesh.ts:5-28 | Before any door is built the texture, geometry and material caches are all empty. |
| DoorMesh.DoorShared.GetDoorTexture | src/dungeon/doorMesh.ts:7-12 | The texture is built on the first call only. Later calls return the cached one. |
| DoorMesh.DoorShared.EnsureShared | src/dungeon/doorMesh.ts:30-58 | Both caches are present afterwards. A cache that existed is kept. A missing one is freshly built with the fixed five shapes, or the three materials with their fixed colours, roughness, metalness and no glow, all undisposed. The wood's map is the door texture, which is reused if it already exists and is otherwise new and undisposed. |
| DoorMesh.PivotOf | src/dungeon/doorMesh.ts:111-113 | The pivot is absent exactly when the door has no children, and otherwise is one of them. |
| DoorMesh.PanelOf | src/dungeon/doorMesh.ts:111-115 | The panel is absent exactly when there is no pivot or the pivot has no children, and otherwise is a child of the pivot. |
| DoorMesh.AttachMesh | src/dungeon/doorMesh.ts:68-77 | A fresh, unscaled, childless mesh with the given geometry, material, position and rotation becomes the parent's last child. The parent's earlier children, position, rotation, scale and material are kept. |
| DoorMesh.BuildPivot | src/dungeon/doorMesh.ts:66-80 | The pivot is a fresh, unturned, unscaled group at x = -1.5 holding the unturned wood panel at (1.5, 2.25, 0) and then the iron ring at (2.0, 2.25, 0.095), turned π/2 about x. Panel and ring are unscaled and childless. |
| DoorMesh.AddFrame | src/dungeon/doorMesh.ts:83-98 | Four fresh, unturned, unscaled, childless stone meshes are appended after the existing children: the two pillars at x = ∓1.6, the top beam at y = 4.5 and the threshold at the origin. The group's own placement and material are kept. |
| DoorMesh.DoorShared.CreateDoorModel | src/dungeon/doorMesh.ts:60-108 | The door is a fresh group of five children, at the origin and unscaled. The first child is a pivot at x = -1.5 holding the wood panel and the iron ring; pivot and panel are unturned, so the door starts closed. Pivot, panel and ring are unscaled, and panel and ring are childless. Then come the two pillars, the top beam and the threshold, in stone, at their positions, unturned, unscaled and childless. The shared caches are as `EnsureShared` states. The group is turned by π/2 about y only for `ew`. |
| DoorMesh.DoorShared.SetDoorLocked | src/dungeon/doorMesh.ts:110-134 | A door without a pivot or panel is left alone, and a panel without a material throws. Locking a panel that still uses the shared wood gives it a fresh, undisposed clone glowing 0xff2222 at 0.5, and the shared wood is untouched. Locking any other material tints it in place. Unlocking sets emissive 0 at intensity 0. The panel's position, rotation, scale and children are kept. |
| SceneGraph.Material.Clone | src/dungeon/doorMesh.ts:122 | `clone()` gives a new material with the source's colour, map, roughness, metalness and emissive settings, not yet disposed. |
| DoorMesh.DoorShared.DisposeDoorShared | src/dungeon/doorMesh.ts:136-155 | Every cached geometry, material and texture is disposed exactly once, and all three caches are emptied. The disposed materials keep their emissive colour and intensity. |
| SubtypeBackfill.Lower | server/db.ts:72 | `LOWER` keeps the length and maps each character on its own. |
| SubtypeBackfill.Rules | server/db.ts:71-102 | Each kind has seven `WHEN` arms, in source order, each with at least one keyword and its own subtype, none of them the `ELSE` value. |
| SubtypeBackfill.Default | server/db.ts:79-102 | The `ELSE` value, which the `WHERE` also selects on, is one of the kind's subtypes. |
| SubtypeBackfill.LowerIdempotent | server/db.ts:72 | Lower-casing twice is the same as lower-casing once. |
| SubtypeBackfill.Classify | server/db.ts:71-79 | The `CASE` result is the `ELSE` value or the subtype of one of the arms. |
| SubtypeBackfill.NoMatchFallsBack | server/db.ts:79 | When no arm matches, the result is the `ELSE` value. |
| SubtypeBackfill.FirstMatchWins | server/db.ts:71-79 | When arm i matches and no earlier arm does, the result is arm i's subtype. |
| SubtypeBackfill.Subtype | server/db.ts:71-102 | The subtype given to any name is one of the kind's eight subtypes. |
| SubtypeBackfill.CaseInsensitive | server/db.ts:72-78 | A name and its lower-cased form are classified alike. |
| SubtypeBackfill.StaffBeatsEverything | server/db.ts:72-78 | A weapon whose lower-cased name contains "staff" is a staff, whatever other keywords it contains. |
| SubtypeBackfill.BackfillTable | server/db.ts:71-102 | Row count and order are kept, and each row is updated independently. |
| SubtypeBackfill.BackfillEffect | server/db.ts:70-102 | Names are kept, rows off the default are unchanged, and rows on the default get a subtype of the kind. |
| SubtypeBackfill.BackfillIdempotent | server/db.ts:70-102 | Running any of the statements again, as every start-up does, changes nothing. |
| SubtypeBackfill.BackfillOne | server/db.ts:71-80 | A row on the statement's `ELSE` value gets the `CASE` result for its lower-cased name. Any other row is returned as it was, and the name never changes. |
| SubtypeBackfill.Backfill | server/db.ts:70-102 | The table afterwards is `BackfillTable` of the statement applied to the table before. |
| SubtypeBackfill.BackfillAll | server/db.ts:70-102 | Each of the weapons, enemies and decorations tables ends up as `BackfillTable` of its own statement applied to it. |
| ForgeRoute.StripPngDataUrl | server/routes/enemies.ts:20 | The result is a suffix of the input. The prefix is removed only when the input starts with it, and the input is otherwise unchanged. |
| ForgeRoute.StripPrefixed | server/routes/enemies.ts:20 | Stripping `data:image/png;base64,` + data gives back the data. |
| ForgeRoute.StripOnce | server/routes/enemies.ts:20 | Only one leading prefix is removed. |
| ForgeRoute.StripBare | server/routes/enemies.ts:20 | Bare base64, which has no `:`, passes through unchanged. |
| ForgeRoute.HandleForgeEnemy | server/routes/enemies.ts:6-99 | An absent or empty sketch gives 400, checked before the key, and no call is made. A missing key gives 500 and no call. A failed step 1 or step 2 gives 502 with the upstream text, and no later step runs. A thrown step gives 500 "Internal server error". Success gives status 200 with `model/gltf-binary` and the optimised bytes. The calls are made in order with the stripped sketch and each step's output. |
| EnemyApi.NatToString | src/api/enemyApi.ts:32 | The status prints as one or more decimal digits without a leading zero. |
| EnemyApi.NatToStringRoundTrip | src/api/enemyApi.ts:32 | The printed status reads back as the same number. |
| EnemyApi.ErrorMessage | src/api/enemyApi.ts:30-33 | A non-JSON body gives "Unknown error". A non-empty `error` field is used as it is. Otherwise the message is exactly "Forge failed (" + the status in decimal without leading zeros + ")", and the digits read back as the status. The message is never empty. |
| EnemyApi.ForgeEnemy | src/api/enemyApi.ts:18-37 | With a callback the effects are `mesh`, the POST, then `done` only on success. Without one the only effect is the POST. A non-ok reply rejects with `ErrorMessage` of its body and status. An ok reply resolves with its parsed body. |

## Left out

- The three.js animation mixer is reduced to what the machine calls on it: playing set, last cross-fade, loop settings, clock and call log. Blending weights and disabling the faded-out action are not modelled.
- Which `finished` notifications the mixer raises during `update(delta)` is an input to `Update`. Clip timing is not modelled.
- EnemyController.EnemyInstance.constructor: the mixer is passed alongside the model. The source reads `model.mixer` and `model.clips`, which the loader's `EnemyModel` does not declare.
- GLB parsing and `Box3.setFromObject` are done by three.js. The bounding box and the list of nodes `traverse` visits are inputs to `LoadEnemyModel`.
- Coordinates are real numbers. Floating-point rounding is not modelled, and neither is the infinite `min.y` that three.js gives an empty box.
- `Math.PI / 2` is the double 1.5707963267948966 written as a real.
- SceneGraph.Node3D.Add does not detach a child from a different previous parent.
- EnemyLoader.EnemyModel.Dispose: a material shared by several meshes, or listed twice in one array, is released once per occurrence, because `dispose` does not remember what it has already released.
- The door texture's pixels are not modelled.
- SubtypeBackfill.Lower is ASCII-only, whereas PostgreSQL's `LOWER` follows the database locale. `NULL` names and subtypes are not modelled.
- Keywords match anywhere in the name, as `LIKE '%…%'` does. So "Sorcerer" contains "orc" and would be a goblin; the model keeps this behaviour.
- The `ALTER TABLE` statements, the connection pool and logging in `server/db.ts` are not modelled.
- ForgeRoute.HandleForgeEnemy: base64 decoding, the form fields sent to Stability, the Stability services and `optimizeGlb` are opaque. Their outcomes are inputs, and only the arguments that flow between steps are recorded.
- A failure while reading an upstream body is folded into `FetchThrew`. A `sketch` that is not a string is not modelled. Logging and the size-reduction percentage are not modelled.
- EnemyApi.ForgeEnemy: the parsed success body is an opaque value. A success body that fails to parse, an error body that is JSON `null`, and an `error` field that is not a string are not modelled.
- The client parses the success body as JSON while the server sends GLB bytes. Payload formats are not modelled.
- `src/drawing/projectilePad.ts`, `src/utils/proceduralTextures.ts` and `server/index.ts` are not part of this model.
