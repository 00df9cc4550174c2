/** The target scan of `Flyable::getClosestKart`, as specification functions
    over the karts' positions, with what can be proved about the comparison
    rule the loop uses and about the rule a function named getClosestKart,
    with an out-parameter minDist, evidently means. */
module Targeting {
  import opened Values

  /** The value `*minDist` is reset to before the scan (99999.9f). */
  const Sentinel: real := 99999.9

  /** The three out-parameters: `*minKart`, `*minDist` and `*minDelta`. */
  datatype Closest = Closest(kart: Option<nat>, dist: real, delta: Vec3)

  /** The vector from the projectile at `p` to kart `i`. */
  function Delta(karts: seq<Vec3>, p: Vec3, i: nat): Vec3
    requires i < |karts|
  {
    Sub(karts[i], p)
  }

  function Dist2(karts: seq<Vec3>, p: Vec3, i: nat): real
    requires i < |karts|
  {
    Length2(Delta(karts, p, i))
  }

  /** One iteration of the loop, exactly as written: the owner is skipped,
      and a kart replaces the best so far when its SQUARED distance is below
      the stored distance, which is then set to the square root. */
  function Step(karts: seq<Vec3>, p: Vec3, owner: nat, sqrt: real -> real, best: Closest, i: nat): Closest
    requires i < |karts|
  {
    if i == owner then best
    else if Dist2(karts, p, i) < best.dist then
      Closest(Some(i), sqrt(Dist2(karts, p, i)), Delta(karts, p, i))
    else best
  }

  /** The out-parameters after the first `k` iterations, starting from `init`. */
  function Scan(karts: seq<Vec3>, p: Vec3, owner: nat, sqrt: real -> real, k: nat, init: Closest): Closest
    requires k <= |karts|
  {
    if k == 0 then init
    else Step(karts, p, owner, sqrt, Scan(karts, p, owner, sqrt, k - 1, init), k - 1)
  }

  /** The scan either leaves the out-parameters as they started, or it has
      chosen a kart other than the owner, with that kart's own delta and the
      square root of that kart's squared distance. */
  lemma {:induction false} ScanOutcome(karts: seq<Vec3>, p: Vec3, owner: nat, sqrt: real -> real, k: nat, init: Closest)
    requires k <= |karts|
    ensures var r := Scan(karts, p, owner, sqrt, k, init);
      || r == init
      || (&& r.kart.Some? && r.kart.value < k && r.kart.value != owner
          && r.dist == sqrt(Dist2(karts, p, r.kart.value))
          && r.delta == Delta(karts, p, r.kart.value))
  {
    if k > 0 {
      ScanOutcome(karts, p, owner, sqrt, k - 1, init);
    }
  }

  /** If no kart other than the owner is nearer (squared) than the starting
      distance, the scan leaves the out-parameters as they started. */
  lemma {:induction false} NoCandidateKeepsInit(karts: seq<Vec3>, p: Vec3, owner: nat, sqrt: real -> real, k: nat, init: Closest)
    requires k <= |karts|
    requires forall i :: 0 <= i < k && i != owner ==> init.dist <= Dist2(karts, p, i)
    ensures Scan(karts, p, owner, sqrt, k, init) == init
  {
    if k > 0 {
      NoCandidateKeepsInit(karts, p, owner, sqrt, k - 1, init);
    }
  }

  /** If some kart other than the owner has a squared distance below the
      starting distance, the scan ends on a kart other than the owner, with
      that kart's own delta and the square root of its squared distance. */
  lemma {:induction false} ScanFinds(karts: seq<Vec3>, p: Vec3, owner: nat, sqrt: real -> real, k: nat, init: Closest)
    requires k <= |karts|
    requires exists i :: 0 <= i < k && i != owner && Dist2(karts, p, i) < init.dist
    ensures var r := Scan(karts, p, owner, sqrt, k, init);
      && r.kart.Some? && r.kart.value < k && r.kart.value != owner
      && r.dist == sqrt(Dist2(karts, p, r.kart.value))
      && r.delta == Delta(karts, p, r.kart.value)
  {
    if exists i :: 0 <= i < k - 1 && i != owner && Dist2(karts, p, i) < init.dist {
      ScanFinds(karts, p, owner, sqrt, k - 1, init);
    } else {
      ScanOutcome(karts, p, owner, sqrt, k - 1, init);
    }
  }

  /** True when every one of the first `k` karts is the owner. */
  predicate OnlyOwner(owner: nat, k: nat) {
    k == 0 || (k == 1 && owner == 0)
  }

  /** When the owner is the only kart, the out-parameters stay as they
      started (the kart and delta as passed in, the distance the sentinel). */
  lemma ScanWithoutOpponents(karts: seq<Vec3>, p: Vec3, owner: nat, sqrt: real -> real, k: nat, init: Closest)
    requires k <= |karts| && OnlyOwner(owner, k)
    ensures Scan(karts, p, owner, sqrt, k, init) == init
  {
  }

  /** A kart at distance 3 followed by one at distance 2 (the owner last):
      the loop as written keeps the first, because 2*2 = 4 is not below the
      stored 3, although the second kart is nearer. The intended scan
      (`Nearest`) picks the second. */
  lemma ScanKeepsFartherOfTwo(sqrt: real -> real)
    requires sqrt(9.0) == 3.0
    ensures var karts := [Vec3(3.0, 0.0, 0.0), Vec3(0.0, 2.0, 0.0), Origin];
      && Scan(karts, Origin, 2, sqrt, 3, Closest(None, Sentinel, Origin))
         == Closest(Some(0), 3.0, Vec3(3.0, 0.0, 0.0))
      && Dist2(karts, Origin, 1) < Dist2(karts, Origin, 0)
      && Nearest(karts, Origin, 2, 3, Closest(None, Sentinel * Sentinel, Origin)).kart == Some(1)
  {
    var karts := [Vec3(3.0, 0.0, 0.0), Vec3(0.0, 2.0, 0.0), Origin];
    var init := Closest(None, Sentinel, Origin);
    assert Scan(karts, Origin, 2, sqrt, 1, init) == Closest(Some(0), 3.0, Vec3(3.0, 0.0, 0.0));
    assert Scan(karts, Origin, 2, sqrt, 2, init) == Closest(Some(0), 3.0, Vec3(3.0, 0.0, 0.0));
    var init2 := Closest(None, Sentinel * Sentinel, Origin);
    assert Nearest(karts, Origin, 2, 1, init2) == Closest(Some(0), 9.0, Vec3(3.0, 0.0, 0.0));
    assert Nearest(karts, Origin, 2, 2, init2) == Closest(Some(1), 4.0, Vec3(0.0, 2.0, 0.0));
  }

  /** Karts at distances 5, 2 and 8 (the owner last): here the loop as
      written does return the kart at distance 2. */
  lemma ScanPicksNearestOfThree(sqrt: real -> real)
    requires sqrt(25.0) == 5.0 && sqrt(4.0) == 2.0
    ensures var karts := [Vec3(5.0, 0.0, 0.0), Vec3(0.0, 2.0, 0.0), Vec3(0.0, 0.0, 8.0), Origin];
      Scan(karts, Origin, 3, sqrt, 4, Closest(None, Sentinel, Origin))
        == Closest(Some(1), 2.0, Vec3(0.0, 2.0, 0.0))
  {
    var karts := [Vec3(5.0, 0.0, 0.0), Vec3(0.0, 2.0, 0.0), Vec3(0.0, 0.0, 8.0), Origin];
    var init := Closest(None, Sentinel, Origin);
    assert Scan(karts, Origin, 3, sqrt, 1, init) == Closest(Some(0), 5.0, Vec3(5.0, 0.0, 0.0));
    assert Scan(karts, Origin, 3, sqrt, 2, init) == Closest(Some(1), 2.0, Vec3(0.0, 2.0, 0.0));
    assert Scan(karts, Origin, 3, sqrt, 3, init) == Closest(Some(1), 2.0, Vec3(0.0, 2.0, 0.0));
  }

  /** The intended scan: squared distances compared with the squared best
      so far. Here `dist` holds the squared distance of the best kart; no
      square root is taken. */
  function Nearest(karts: seq<Vec3>, p: Vec3, owner: nat, k: nat, init: Closest): Closest
    requires k <= |karts|
  {
    if k == 0 then init
    else
      var best := Nearest(karts, p, owner, k - 1, init);
      if k - 1 == owner then best
      else if Dist2(karts, p, k - 1) < best.dist then
        Closest(Some(k - 1), Dist2(karts, p, k - 1), Delta(karts, p, k - 1))
      else best
  }

  /** The intended scan returns a true minimum: its squared distance is at
      most that of every kart other than the owner that lies within the
      sentinel, and what it returns is either the starting value or such a
      kart with its own squared distance and delta. */
  lemma {:induction false} NearestIsMinimal(karts: seq<Vec3>, p: Vec3, owner: nat, k: nat, init: Closest)
    requires k <= |karts|
    ensures var r := Nearest(karts, p, owner, k, init);
      && r.dist <= init.dist
      && (|| r == init
          || (&& r.kart.Some? && r.kart.value < k && r.kart.value != owner
              && r.dist == Dist2(karts, p, r.kart.value)
              && r.delta == Delta(karts, p, r.kart.value)))
      && forall i :: 0 <= i < k && i != owner && Dist2(karts, p, i) < init.dist ==> r.dist <= Dist2(karts, p, i)
  {
    if k > 0 {
      NearestIsMinimal(karts, p, owner, k - 1, init);
    }
  }
}
