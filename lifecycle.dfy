/** The life of one flyable: construction from the type table, the physics
    body, the per-tick altitude controller, the one-shot explosion and the
    target scan. The collaborators (physics world, scene, projectile manager,
    karts) are a `World` object whose calls are recorded in a ghost log. */
module Lifecycle {
  import opened Values
  import opened Config
  import opened Targeting

  /** The three altitude hooks (too_low, too_high, right_height). */
  datatype Band = TooLow | TooHigh | RightHeight

  /** What the terrain sensor reports: no surface below, or its height. */
  datatype HoT = NoHit | Hit(height: real)

  /** The calls the Flyable makes into its collaborators, in order. */
  datatype Event =
    | SceneAdded(model: SceneModel)             // addKid + scene->add at construction
    | BodyAdded                                  // createPhysics: body added to the physics world
    | ManagerExplode                             // projectile_manager->explode()
    | GraphRemoved                               // removeAllKids + scene->remove
    | BodyRemoved                                // physics removeBody
    | ExplodedFlagSet                            // the point where m_exploded becomes true
    | KartNotified(kart: nat, pos: Vec3, direct: bool)  // kart->handleExplosion
    | AltitudeHook(band: Band, dt: real)         // too_low / too_high / right_height
    | MoveableUpdate(dt: real)                   // Moveable::update

  /** The altitude band for height above terrain `hat`, by the `if / else if
      / else` chain of `update`. */
  function Classify(hat: real, minHeight: real, maxHeight: real): (b: Band)
    ensures b == TooLow <==> hat < minHeight
    ensures b == TooHigh <==> minHeight <= hat && maxHeight < hat
    ensures b == RightHeight <==> minHeight <= hat <= maxHeight
  {
    if hat < minHeight then TooLow
    else if hat > maxHeight then TooHigh
    else RightHeight
  }

  /** With the minimum height above the maximum (as with the defaults 3 and
      1) no height reaches right_height. */
  lemma RightHeightUnreachableWhenInverted(hat: real, minHeight: real, maxHeight: real)
    requires maxHeight < minHeight
    ensures Classify(hat, minHeight, maxHeight) != RightHeight
  {
  }

  /** The explosion position: m_curr_pos.xyz[2] += 1.2f. */
  function Raised(p: Vec3): Vec3 {
    p.(z := p.z + 1.2)
  }

  /** The notifications of the broadcast loop over the first `n` karts. */
  function Broadcast(n: nat, pos: Vec3, hit: Option<nat>): (log: seq<Event>)
    ensures |log| == n
  {
    if n == 0 then [] else Broadcast(n - 1, pos, hit) + [KartNotified(n - 1, pos, hit == Some(n - 1))]
  }

  /** Everything a first `explode(hit)` asks of the collaborators, with `n`
      karts in the world and `pos` the raised position. */
  function ExplodeTrace(n: nat, pos: Vec3, hit: Option<nat>): seq<Event> {
    [ManagerExplode, GraphRemoved, BodyRemoved, ExplodedFlagSet] + Broadcast(n, pos, hit)
  }

  /** The broadcast notifies kart 0, 1, ..., n-1 in this order, each with
      the direct-hit flag set exactly when it is the kart hit. */
  lemma {:induction false} BroadcastAt(n: nat, pos: Vec3, hit: Option<nat>, i: nat)
    requires i < n
    ensures Broadcast(n, pos, hit)[i] == KartNotified(i, pos, hit == Some(i))
  {
    if i < n - 1 {
      BroadcastAt(n - 1, pos, hit, i);
    }
  }

  /** The order of a first explosion: one manager notification, the graph
      removal, the body removal, then the flag, and only then the karts, each
      once and in index order. */
  lemma ExplodeTraceLayout(n: nat, pos: Vec3, hit: Option<nat>)
    ensures var t := ExplodeTrace(n, pos, hit);
      && |t| == 4 + n
      && t[..4] == [ManagerExplode, GraphRemoved, BodyRemoved, ExplodedFlagSet]
      && forall j :: 4 <= j < |t| ==> t[j] == KartNotified(j - 4, pos, hit == Some(j - 4))
  {
    var t := ExplodeTrace(n, pos, hit);
    forall j | 4 <= j < |t|
      ensures t[j] == KartNotified(j - 4, pos, hit == Some(j - 4))
    {
      BroadcastAt(n, pos, hit, j - 4);
    }
  }

  /** What to count in a log. */
  datatype Query = Is(e: Event) | DirectHit | NotificationOf(kart: nat)

  predicate Matches(q: Query, e: Event) {
    match q
    case Is(x) => e == x
    case DirectHit => e.KartNotified? && e.direct
    case NotificationOf(k) => e.KartNotified? && e.kart == k
  }

  /** The number of events of `log` that match `q`. */
  function Count(log: seq<Event>, q: Query): (c: nat)
    ensures c <= |log|
  {
    if log == [] then 0
    else Count(log[..|log| - 1], q) + (if Matches(q, log[|log| - 1]) then 1 else 0)
  }

  /** The count of the one-event log `[e]`. */
  function CountIn(e: Event, q: Query): nat {
    if Matches(q, e) then 1 else 0
  }

  lemma {:induction false} CountAppend(a: seq<Event>, b: seq<Event>, q: Query)
    ensures Count(a + b, q) == Count(a, q) + Count(b, q)
  {
    if b != [] {
      assert (a + b)[..|a + b| - 1] == a + b[..|b| - 1];
      CountAppend(a, b[..|b| - 1], q);
    } else {
      assert a + b == a;
    }
  }

  /** Counts over the broadcast: each kart below `n` is notified once, there
      is a direct hit exactly when the kart hit is one of the `n` karts, and
      no other kind of event occurs. */
  lemma {:induction false} BroadcastCounts(n: nat, pos: Vec3, hit: Option<nat>, q: Query)
    ensures Count(Broadcast(n, pos, hit), q) ==
      match q
      case Is(e) => if e.KartNotified? && e.pos == pos && e.kart < n && e.direct == (hit == Some(e.kart)) then 1 else 0
      case DirectHit => if hit.Some? && hit.value < n then 1 else 0
      case NotificationOf(k) => if k < n then 1 else 0
  {
    if n > 0 {
      var b := Broadcast(n, pos, hit);
      assert b[..|b| - 1] == Broadcast(n - 1, pos, hit);
      assert b[|b| - 1] == KartNotified(n - 1, pos, hit == Some(n - 1));
      assert Count(b, q) == Count(b[..|b| - 1], q) + (if Matches(q, b[|b| - 1]) then 1 else 0);
      BroadcastCounts(n - 1, pos, hit, q);
    }
  }

  /** A first explosion calls the manager once, removes the graph and the
      body once each, sets the flag once, notifies every kart once, and
      reports one direct hit if the kart hit is in the world and none
      otherwise (in particular none for `explode(NULL)`). */
  lemma ExplodeTraceCounts(n: nat, pos: Vec3, hit: Option<nat>)
    ensures var t := ExplodeTrace(n, pos, hit);
      && Count(t, Is(ManagerExplode)) == 1
      && Count(t, Is(GraphRemoved)) == 1
      && Count(t, Is(BodyRemoved)) == 1
      && Count(t, Is(ExplodedFlagSet)) == 1
      && Count(t, DirectHit) == (if hit.Some? && hit.value < n then 1 else 0)
      && forall k: nat :: Count(t, NotificationOf(k)) == (if k < n then 1 else 0)
  {
    var head := [ManagerExplode, GraphRemoved, BodyRemoved, ExplodedFlagSet];
    var b := Broadcast(n, pos, hit);
    var h1 := [ManagerExplode];
    var h2 := h1 + [GraphRemoved];
    var h3 := h2 + [BodyRemoved];
    assert h3 + [ExplodedFlagSet] == head;
    assert h1[..0] == [] && h2[..1] == h1 && h3[..2] == h2 && head[..3] == h3;
    forall q: Query
      ensures Count(head + b, q) == CountIn(ManagerExplode, q) + CountIn(GraphRemoved, q)
                                    + CountIn(BodyRemoved, q) + CountIn(ExplodedFlagSet, q)
                                    + Count(b, q)
    {
      assert Count(h1, q) == CountIn(ManagerExplode, q);
      assert Count(h2, q) == Count(h1, q) + CountIn(GraphRemoved, q);
      assert Count(h3, q) == Count(h2, q) + CountIn(BodyRemoved, q);
      CountAppend(head, b, q);
    }
    BroadcastCounts(n, pos, hit, Is(ManagerExplode));
    BroadcastCounts(n, pos, hit, Is(GraphRemoved));
    BroadcastCounts(n, pos, hit, Is(BodyRemoved));
    BroadcastCounts(n, pos, hit, Is(ExplodedFlagSet));
    BroadcastCounts(n, pos, hit, DirectHit);
    forall k: nat ensures Count(b, NotificationOf(k)) == (if k < n then 1 else 0) {
      BroadcastCounts(n, pos, hit, NotificationOf(k));
    }
  }

  /** The collaborators the Flyable reaches through globals: the karts of the
      world (their positions, by index), and the log of calls into the
      physics world, the scene, the projectile manager and the karts. */
  class World {
    var kartPos: seq<Vec3>
    /** The karts whose handleExplosion calls back into the exploding
        flyable's explode (with themselves as the kart hit). */
    var callsBack: set<nat>
    ghost var log: seq<Event>

    constructor (kartPos: seq<Vec3>, callsBack: set<nat>)
      ensures this.kartPos == kartPos && this.callsBack == callsBack && log == []
    {
      this.kartPos := kartPos;
      this.callsBack := callsBack;
      log := [];
    }
  }

  /** The Flyable's own fields; the positions it inherits from Moveable are
      kept apart. */
  datatype FlyState = FlyState(
    speed: real, extent: Vec3, maxHeight: real, minHeight: real, forceUpDown: real,
    owner: nat, hasHitSomething: bool, lastRadarBeep: real, exploded: bool,
    hasShape: bool, hasBody: bool, mass: real)

  class Flyable {
    const world: World
    var speed: real
    var extent: Vec3
    var maxHeight: real
    var minHeight: real
    var forceUpDown: real
    var owner: nat
    var hasHitSomething: bool
    var lastRadarBeep: real
    var exploded: bool
    /** m_shape != NULL */
    var hasShape: bool
    /** m_body != NULL: createPhysics has run. Every use of the body before
        that is a programmer error. */
    var hasBody: bool
    var mass: real
    /** m_curr_pos.xyz: the rendered position. */
    var currPos: Vec3
    /** The origin of the physics body's world transform; the physics
        simulation moves it between ticks. */
    var bodyPos: Vec3

    function State(): FlyState
      reads this
    {
      FlyState(speed, extent, maxHeight, minHeight, forceUpDown, owner,
               hasHitSomething, lastRadarBeep, exploded, hasShape, hasBody, mass)
    }

    /** Only explode sets the hit flag, and it sets it before the exploded flag. */
    ghost predicate Valid()
      reads this
    {
      exploded ==> hasHitSomething
    }

    /** Flyable::Flyable(kart, type): a snapshot of row `t` of the table,
        fresh flags, and the type's model added to the scene. */
    constructor (w: World, table: TypeTable, kart: nat, t: nat)
      requires table.Valid() && t < table.size
      modifies w
      ensures world == w && Valid()
      ensures var e := table.Entry(t);
        State() == FlyState(e.speed, e.extent, e.maxHeight, e.minHeight, e.forceUpDown,
                            kart, false, -1.0, false, false, false, 1.0)
      ensures w.log == old(w.log) + [SceneAdded(table.model[t])]
      ensures w.kartPos == old(w.kartPos) && w.callsBack == old(w.callsBack)
    {
      world := w;
      speed := table.speed[t];
      extent := table.extent[t];
      maxHeight := table.maxHeight[t];
      minHeight := table.minHeight[t];
      forceUpDown := table.forceUpDown[t];
      owner := kart;
      hasHitSomething := false;
      lastRadarBeep := -1.0;
      exploded := false;
      hasShape := false;
      hasBody := false;
      mass := 1.0;
      new;
      w.log := w.log + [SceneAdded(table.model[t])];
    }

    /** createPhysics with the launch transform already computed: the shape
        exists, the body is placed at `launch` and added to the physics
        world, and the rendered position mirrors it (placeModel). */
    method CreatePhysics(launch: Vec3)
      requires Valid()
      modifies this, world
      ensures Valid()
      ensures State() == old(State()).(hasShape := true, hasBody := true)
      ensures bodyPos == launch && currPos == launch
      ensures world.log == old(world.log) + [BodyAdded]
      ensures world.kartPos == old(world.kartPos) && world.callsBack == old(world.callsBack)
    {
      hasShape := true;
      hasBody := true;
      bodyPos := launch;
      world.log := world.log + [BodyAdded];
      currPos := bodyPos;
    }

    /** Flyable::explode(kart_hit). Guarded by the exploded flag: a call on
        an exploded flyable changes nothing and calls nothing. A first call
        sets the hit flag, raises the position by 1.2, tells the manager,
        removes the graph and the body, sets the exploded flag, and then
        notifies every kart, flagging the one hit. A kart whose handler
        calls back into explode meets the flag and the call does nothing. */
    method Explode(kartHit: Option<nat>)
      requires Valid() && hasBody
      modifies this, world
      decreases if exploded then 0 else 1
      ensures Valid()
      ensures world.kartPos == old(world.kartPos) && world.callsBack == old(world.callsBack)
      ensures old(exploded) ==> unchanged(this) && world.log == old(world.log)
      ensures !old(exploded) ==>
        && State() == old(State()).(hasHitSomething := true, exploded := true)
        && currPos == Raised(old(currPos)) && bodyPos == old(bodyPos)
        && world.log == old(world.log) + ExplodeTrace(|world.kartPos|, Raised(old(currPos)), kartHit)
    {
      if exploded { return; }

      hasHitSomething := true;
      currPos := Raised(currPos);
      world.log := world.log + [ManagerExplode];
      world.log := world.log + [GraphRemoved];
      world.log := world.log + [BodyRemoved];
      exploded := true;
      world.log := world.log + [ExplodedFlagSet];

      ghost var before := world.log;
      var i := 0;
      while i < |world.kartPos|
        invariant 0 <= i <= |world.kartPos|
        invariant world.kartPos == old(world.kartPos) && world.callsBack == old(world.callsBack)
        invariant State() == old(State()).(hasHitSomething := true, exploded := true)
        invariant currPos == Raised(old(currPos)) && bodyPos == old(bodyPos)
        invariant world.log == before + Broadcast(i, currPos, kartHit)
      {
        world.log := world.log + [KartNotified(i, currPos, kartHit == Some(i))];
        if i in world.callsBack {
          Explode(Some(i));
        }
        i := i + 1;
      }
    }

    /** Flyable::update(dt), with `hot` the terrain sensor's answer at the
        body's origin. Nothing happens once exploded; with no terrain below
        the effect is exactly explode(NULL); otherwise exactly one altitude
        hook runs, chosen from the height above terrain, then the Moveable
        update. */
    method Update(dt: real, hot: HoT)
      requires Valid() && hasBody
      modifies this, world
      ensures Valid()
      ensures world.kartPos == old(world.kartPos) && world.callsBack == old(world.callsBack)
      ensures old(exploded) ==> unchanged(this) && world.log == old(world.log)
      ensures !old(exploded) && hot.NoHit? ==>
        && State() == old(State()).(hasHitSomething := true, exploded := true)
        && currPos == Raised(old(currPos)) && bodyPos == old(bodyPos)
        && world.log == old(world.log) + ExplodeTrace(|world.kartPos|, Raised(old(currPos)), None)
      ensures !old(exploded) && hot.Hit? ==>
        && unchanged(this)
        && world.log == old(world.log) +
             [AltitudeHook(Classify(bodyPos.z - hot.height, minHeight, maxHeight), dt), MoveableUpdate(dt)]
    {
      if exploded { return; }

      if hot.NoHit? {
        Explode(None);
        return;
      }

      var hat := bodyPos.z - hot.height;
      if hat < minHeight {
        world.log := world.log + [AltitudeHook(TooLow, dt)];
      } else if hat > maxHeight {
        world.log := world.log + [AltitudeHook(TooHigh, dt)];
      } else {
        world.log := world.log + [AltitudeHook(RightHeight, dt)];
      }
      world.log := world.log + [MoveableUpdate(dt)];
    }

    /** Flyable::getClosestKart, with `minKart0` and `minDelta0` what the
        caller's out-variables hold and `sqrt` the C library's square root.
        The out-parameters are those of the scan as written over all the
        karts from the body's position. */
    method GetClosestKart(minKart0: Option<nat>, minDelta0: Vec3, sqrt: real -> real)
      returns (minKart: Option<nat>, minDist: real, minDelta: Vec3)
      requires hasBody
      ensures Closest(minKart, minDist, minDelta)
           == Scan(world.kartPos, bodyPos, owner, sqrt, |world.kartPos|, Closest(minKart0, Sentinel, minDelta0))
    {
      var p := bodyPos;
      minKart, minDelta := minKart0, minDelta0;
      minDist := Sentinel;
      var i := 0;
      while i < |world.kartPos|
        invariant 0 <= i <= |world.kartPos|
        invariant Closest(minKart, minDist, minDelta)
               == Scan(world.kartPos, p, owner, sqrt, i, Closest(minKart0, Sentinel, minDelta0))
      {
        if i != owner {
          var delta := Sub(world.kartPos[i], p);
          var distance2 := Length2(delta);
          if distance2 < minDist {
            minDist := sqrt(distance2);
            minKart := Some(i);
            minDelta := delta;
          }
        }
        i := i + 1;
      }
    }
  }
}
