/** The nearest-server matcher run on mouse release: a linear scan over the
    fleet that keeps the first server strictly closer than everything seen so
    far, starting from a sentinel distance of 100.

    The program compares `sqrt(dx*dx + dy*dy)` against the running minimum.
    Square root is strictly increasing on non-negative numbers
    (`SqrtPreservesOrder`), so this model compares squared distances against
    the squared sentinel and takes the same branches.
 */
module Matcher {
  import opened Model

  /** Distance the scan starts from: only servers closer than this can match. */
  const Sentinel: real := 100.0
  const SentinelSquared: real := Sentinel * Sentinel

  /** Squared distance from the release point to the server. The server is
      taken to sit at height 0 whatever the release point's own height is. */
  function Dist2(s: Server, endX: real, endY: real): real
  {
    (endX - s.x) * (endX - s.x) + endY * endY
  }

  /** The distance is never negative, the release point's own height always
      counts in full, and it is all that counts when the point is straight
      above or below the server. */
  lemma Dist2Shape(s: Server, endX: real, endY: real)
    ensures 0.0 <= Dist2(s, endX, endY)
    ensures endY * endY <= Dist2(s, endX, endY)
    ensures endX == s.x ==> Dist2(s, endX, endY) == endY * endY
  {
    var dx := endX - s.x;
    assert 0.0 <= dx * dx by {
      if dx < 0.0 { assert dx * dx == (-dx) * (-dx); }
    }
    assert 0.0 <= endY * endY by {
      if endY < 0.0 { assert endY * endY == (-endY) * (-endY); }
    }
  }

  /** `k` is what a first-found argmin scan over `servers[..n]` must return:
      -1 when no server is closer than the sentinel, otherwise an index whose
      distance is below the sentinel and minimal, and no earlier index ties it. */
  ghost predicate FirstNearest(servers: seq<Server>, endX: real, endY: real, n: nat, k: int)
    requires n <= |servers|
  {
    && (k == -1 <==> forall i :: 0 <= i < n ==> Dist2(servers[i], endX, endY) >= SentinelSquared)
    && (k != -1 ==>
          && 0 <= k < n
          && Dist2(servers[k], endX, endY) < SentinelSquared
          && (forall i :: 0 <= i < n ==> Dist2(servers[k], endX, endY) <= Dist2(servers[i], endX, endY))
          && (forall i :: 0 <= i < k ==> Dist2(servers[k], endX, endY) < Dist2(servers[i], endX, endY)))
  }

  /** The running minimum that goes with the index `k` found so far. */
  function BestSoFar(servers: seq<Server>, endX: real, endY: real, k: int): real
    requires -1 <= k < |servers|
  {
    if k == -1 then SentinelSquared else Dist2(servers[k], endX, endY)
  }

  /** The scan over the first `n` servers, one server per step. */
  function NearestAmong(servers: seq<Server>, endX: real, endY: real, n: nat): (k: int)
    requires n <= |servers|
    ensures -1 <= k < n
    ensures FirstNearest(servers, endX, endY, n, k)
    decreases n
  {
    if n == 0 then -1
    else
      var k := NearestAmong(servers, endX, endY, n - 1);
      if Dist2(servers[n - 1], endX, endY) < BestSoFar(servers, endX, endY, k) then n - 1 else k
  }

  /** The index of the matched server, or -1 for no match. */
  function Nearest(servers: seq<Server>, endX: real, endY: real): (k: int)
    ensures -1 <= k < |servers|
    ensures FirstNearest(servers, endX, endY, |servers|, k)
  {
    NearestAmong(servers, endX, endY, |servers|)
  }

  /** The scan as the program writes it: a loop that keeps the running minimum
      and its index, replacing them only on a strictly smaller distance. */
  method NearestScan(servers: seq<Server>, endX: real, endY: real) returns (k: int)
    ensures -1 <= k < |servers|
    ensures FirstNearest(servers, endX, endY, |servers|, k)
    ensures k == Nearest(servers, endX, endY)
  {
    var minDistance := SentinelSquared;
    k := -1;
    var i := 0;
    while i < |servers|
      invariant 0 <= i <= |servers|
      invariant k == NearestAmong(servers, endX, endY, i)
      invariant minDistance == BestSoFar(servers, endX, endY, k)
    {
      var distance := Dist2(servers[i], endX, endY);
      if distance < minDistance {
        minDistance := distance;
        k := i;
      }
      i := i + 1;
    }
  }

  /** At most one index meets the first-nearest description, so the scan's
      result is fully determined by it. */
  lemma FirstNearestUnique(servers: seq<Server>, endX: real, endY: real, n: nat, k1: int, k2: int)
    requires n <= |servers|
    requires FirstNearest(servers, endX, endY, n, k1)
    requires FirstNearest(servers, endX, endY, n, k2)
    ensures k1 == k2
  {
  }

  /** A lone server within the sentinel distance is matched. */
  lemma LoneServerMatched(srv: Server, endX: real, endY: real)
    requires Dist2(srv, endX, endY) < SentinelSquared
    ensures Nearest([srv], endX, endY) == 0
  {
    assert FirstNearest([srv], endX, endY, 1, 0);
    FirstNearestUnique([srv], endX, endY, 1, 0, Nearest([srv], endX, endY));
  }

  /** `r` is the (non-negative) square root of `a`. */
  ghost predicate IsRoot(r: real, a: real)
  {
    0.0 <= r && r * r == a
  }

  /** Comparing square roots is comparing the squares, so comparing squared
      distances with the squared sentinel takes the program's branches. */
  lemma SqrtPreservesOrder(ra: real, a: real, rb: real, b: real)
    requires IsRoot(ra, a) && IsRoot(rb, b)
    ensures ra < rb <==> a < b
  {
    assert b - a == (rb - ra) * (rb + ra);
    if ra < rb {
      assert 0.0 < (rb - ra) * (rb + ra) by { assert 0.0 < rb - ra && 0.0 < rb + ra; }
    } else {
      assert (rb - ra) * (rb + ra) <= 0.0 by { assert rb - ra <= 0.0 && 0.0 <= rb + ra; }
    }
  }

  /** With servers at -0.5, -0.3 and -0.1 and a release point at x = -0.28 (any
      height within the window), the matcher picks the server at -0.3. */
  lemma ThreeServerExample(endY: real)
    requires -1.0 <= endY <= 1.0
    ensures Nearest([FreshServer(0), FreshServer(1), FreshServer(2)], -0.28, endY) == 1
  {
    var fleet := [FreshServer(0), FreshServer(1), FreshServer(2)];
    var e := endY * endY;
    assert e <= 1.0 by {
      if 0.0 <= endY { assert endY * endY <= endY * 1.0; } else { assert endY * endY <= -endY * 1.0; }
    }
    assert fleet[0].x == -0.5 && fleet[1].x == -0.3 && fleet[2].x == -0.1;
    assert Dist2(fleet[0], -0.28, endY) == 0.0484 + e;
    assert Dist2(fleet[1], -0.28, endY) == 0.0004 + e;
    assert Dist2(fleet[2], -0.28, endY) == 0.0324 + e;
    assert FirstNearest(fleet, -0.28, endY, 3, 1);
    FirstNearestUnique(fleet, -0.28, endY, 3, Nearest(fleet, -0.28, endY), 1);
  }
}
