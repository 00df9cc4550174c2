# Flyable projectiles of SuperTuxKart, modelled in Dafny

This project models the core of `Flyable`, the base class of SuperTuxKart's
guided projectiles (rockets and similar collectables), as it stands in
`src/flyable.cpp`. The geometry and physics are abstracted away. What remains:

- **The per-type configuration table** (`Config.TypeTable`). These are the static
  arrays `m_st_speed`, `m_st_min_height`, `m_st_max_height`,
  `m_st_force_updown`, `m_st_extend` and `m_st_model`, indexed by the
  collectable type. `Init` writes the defaults (speed 25, max-height 1,
  min-height 3, force-updown 15). The keys present in the configuration then
  override them, and the model's bounding extent is stored as `max - min` on
  each axis.
- **The projectile** (`Lifecycle.Flyable`). The constructor copies its type's
  row and sets the initial flags. `CreatePhysics` is reduced to "the shape
  exists, the body is added, the rendered pose mirrors it". `Update` is the
  per-tick altitude controller. `Explode` is the guarded one-shot teardown and
  broadcast. `GetClosestKart` is the target scan.
- **The collaborators** (`Lifecycle.World`). These are the karts (their
  positions, addressed by index) and a ghost log of every call the projectile
  makes into the physics world, the scene, the projectile manager and the
  karts. A marker event records the moment `m_exploded` becomes true, so the
  log also shows the order of the explosion protocol.
- **The target scan** (`Targeting`). It is a specification of the
  `getClosestKart` loop exactly as written. It comes with the variant that a
  function named `getClosestKart`, with an out-parameter `minDist`,
  evidently intends (see Findings).

Floats are reals. Pointers to karts are indices into the world's kart
sequence, and NULL is `None`. The terrain sensor's answer is a parameter of
`Update`. The C library's `sqrt` is a parameter of `GetClosestKart`. The
Lisp configuration node is a map from key to number. The physics body's world
origin is the field `bodyPos`; the physics simulation moves it between
ticks, outside this model.

Two behaviours of the source look unintended. This model keeps both as
written:

- The names `getClosestKart` and `minDist` promise the nearest kart. The
  comparison at lines 175-177 does not always deliver it.
- The defaults at lines 137-138 put min-height (3) above max-height (1). With
  them, the chain at lines 198-203 never reaches the right-height hook
  (`Lifecycle.RightHeightUnreachableWhenInverted`,
  `Config.DefaultsWithoutOverrides`).

The body exists only once `createPhysics` has run. `update`, `explode` and
`getClosestKart` all use it, so the model's `Update`, `Explode` and
`GetClosestKart` require `hasBody`.

## Model

| member | source | states |
|---|---|---|
| `Config.Span` | src/flyable.cpp:145-148 | adding the extent to the minimum corner gives the maximum corner; with well-formed bounds no component is negative |
| `Config.DefaultsWithoutOverrides` | src/flyable.cpp:136-143 | with no keys present the row is speed 25, min-height 3, max-height 1, force-updown 15, so min-height is above max-height |
| `Config.TypeTable.constructor` | src/flyable.cpp:31-37 | the static arrays have COLLECT_MAX entries, all zero and all models NULL |
| `Config.TypeTable.Init` | src/flyable.cpp:133-150 | row `t` becomes the defaults overridden by the keys present, the span of the bounds and the model; every other row is unchanged |
| `Lifecycle.Classify` | src/flyable.cpp:197-203 | too_low iff hat < min; too_high iff hat >= min and hat > max; right_height iff min <= hat <= max |
| `Lifecycle.RightHeightUnreachableWhenInverted` | src/flyable.cpp:198-203 | when min-height is above max-height, right_height is never chosen |
| `Lifecycle.Broadcast` | src/flyable.cpp:240-245 | the broadcast makes one notification per kart |
| `Lifecycle.BroadcastAt` | src/flyable.cpp:240-245 | notification `i` goes to kart `i`, and it is direct exactly when kart `i` is the kart hit |
| `Lifecycle.BroadcastCounts` | src/flyable.cpp:240-245 | each kart index below n is notified exactly once; there is one direct hit if the kart hit is among the karts, else none; no other event occurs |
| `Lifecycle.ExplodeTraceLayout` | src/flyable.cpp:226-245 | a first explosion makes these calls in order: the manager, the graph removal, the body removal, the flag set, then the karts 0..n-1 |
| `Lifecycle.ExplodeTraceCounts` | src/flyable.cpp:226-245 | a first explosion calls the manager once, removes graph and body once each, sets the flag once and notifies each kart once; explode(NULL) reports no direct hit |
| `Lifecycle.Flyable.constructor` | src/flyable.cpp:40-60 | the fields equal the type's row; owner is the launching kart; not hit, not exploded; radar beep -1; no shape and no body; mass 1; the type's model added to the scene |
| `Lifecycle.Flyable.CreatePhysics` | src/flyable.cpp:106-128 | the shape and the body exist, the body is at the launch position and added to the physics world once, and the rendered position mirrors it |
| `Lifecycle.Flyable.Explode` | src/flyable.cpp:222-247 | requires the body to exist; when already exploded, no field changes and nothing is logged; otherwise hit and exploded become true, z rises by 1.2 and the log grows by exactly the explosion trace; re-entrant calls from kart handlers are no-ops; exploded implies hit |
| `Lifecycle.Flyable.Update` | src/flyable.cpp:185-205 | requires the body to exist. Exploded: nothing changes. No terrain: exactly the effect of explode(NULL), and no hook runs. Otherwise exactly one hook, chosen by `Classify` on z - hot, followed by the Moveable update, with no field changed |
| `Lifecycle.Flyable.GetClosestKart` | src/flyable.cpp:160-182 | requires the body to exist; the out-parameters are what the as-written scan gives: minDist starts at 99999.9; the owner is skipped; a kart replaces the best iff its squared distance is below the stored distance, setting minDist to sqrt of it, minKart to it and minDelta to its delta |
| `Targeting.ScanOutcome` | src/flyable.cpp:164-181 | the scan either leaves the out-parameters as they were or has chosen a kart other than the owner, with that kart's delta and the sqrt of its squared distance |
| `Targeting.NoCandidateKeepsInit` | src/flyable.cpp:164-181 | when no kart other than the owner has a squared distance below the starting distance, the out-parameters stay exactly as they started |
| `Targeting.ScanFinds` | src/flyable.cpp:164-181 | when some kart other than the owner has a squared distance below the starting distance, the scan ends on a kart other than the owner, with that kart's delta and the sqrt of its squared distance |
| `Targeting.ScanWithoutOpponents` | src/flyable.cpp:164-181 | when the owner is the only kart, minDist stays 99999.9 and minKart and minDelta stay as passed in |
| `Targeting.ScanKeepsFartherOfTwo` | src/flyable.cpp:173-177 | with karts at distances 3 then 2, the loop keeps the kart at 3 although the other is nearer; the intended scan picks the nearer |
| `Targeting.ScanPicksNearestOfThree` | src/flyable.cpp:173-177 | with karts at distances 5, 2 and 8, the loop returns the kart at distance 2 |
| `Targeting.NearestIsMinimal` | src/flyable.cpp:173-177 | comparing squared with squared distances yields a kart other than the owner with the least squared distance among all the karts within the sentinel |

## Left out

- The heading and pitch of `createPhysics` (lines 69-104) are left out. They are floating-point trigonometry over Bullet types. The resulting launch position is a parameter of `Lifecycle.Flyable.CreatePhysics`, and orientation is not modelled.
- Bullet calls are not logged: the shape construction, `setGravity`, the `m_mass != 0` branch with `setLinearVelocity`/`setAngularFactor`, and `setCollisionFlags`. They are foreign library calls. Only the body being added and removed (and the shape existing) is recorded.
- Scene-graph work is two logged events: `addKid` together with `scene->add` is one `SceneAdded`, and `removeAllKids` together with `scene->remove` is one `GraphRemoved`. `placeModel`'s OpenGL matrix conversion and the velocity copy are reduced to the rendered position taking the body's origin.
- `MinMax` over the model is not modelled; its six results are the `Bounds` input of `Init`. The model handle is an opaque `SceneModel`.
- The bodies of `too_low`, `too_high`, `right_height` and `Moveable::update` live in other files. They are logged hook events. Any effect they have on the body or on the position is not modelled.
- The destructor (deleting the shape, removing the body again) and memory management generally are left out.
- Lisp parsing is not modelled. The configuration node is a map from key to number; keys of another type, and `get`'s return value, are not represented.
- Lifecycle.Flyable.GetClosestKart: `sqrt` is a parameter, so nothing is assumed about it. Properties that need it to be a true square root are stated for the squared-distance variant (`Targeting.NearestIsMinimal`), or they take the needed values as requirements (the two example lemmas).
- Lifecycle.Flyable.Update and Lifecycle.Flyable.GetClosestKart read the projectile's position from `bodyPos`. In the source, the two come from `getBody()->getWorldTransform()` and the motion-state `getTrans`, which can differ within a frame.
- 32-bit float rounding is not modelled: 1.2f, 99999.9f and all squares and differences are exact reals.
- A kart's `handleExplosion` is reduced to a logged notification. Its only other modelled effect is an optional call back into the same projectile's `explode` (the karts in `World.callsBack`), so that the re-entrancy guard is exercised.
- COLLECT_MAX is defined outside this file. It is the `size` of the table, and a type is any index below it.

## Findings

| source | as written | input that shows it | evidently intended | confidence | as-written member | corrected member |
|---|---|---|---|---|---|---|
| src/flyable.cpp:175-177 | a kart's squared distance is compared with the stored best distance, which after the first replacement is a plain (square-rooted) distance | two non-owner karts at distances 3 and 2, in that order: 4 is not below 3, so the kart at distance 3 is kept | compare squared distances with the squared best, so that the true nearest kart is returned | high that the result differs from the minimum; not executed | `Targeting.ScanKeepsFartherOfTwo` | `Targeting.NearestIsMinimal` |
