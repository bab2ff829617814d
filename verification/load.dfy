/** The load updater: adds load to one server, saturating at 1.0, recomputes its
    height, and grows the fleet by one server when that server is full. */
module LoadUpdater {
  import opened Model

  /** The fleet grows when the updated server's height has reached its capacity
      and the fleet is still below the cap. */
  predicate Grows(updated: Server, count: nat)
  {
    updated.height >= updated.maxCapacity && count < MaxServers
  }

  /** `increaseLoad(servers[k], amount)`. The server is updated in place first
      and the new server (if any) is appended afterwards, which is the order the
      program's reference-then-push_back sequence produces. */
  function IncreaseLoad(servers: seq<Server>, k: nat, amount: real): (r: seq<Server>)
    requires k < |servers|
    ensures |r| == |servers| || |r| == |servers| + 1
    // the load saturates at 1.0 and otherwise is the old load plus the amount
    ensures r[k].load <= 1.0
    ensures servers[k].load + amount <= 1.0 ==> r[k].load == servers[k].load + amount
    ensures servers[k].load + amount >= 1.0 ==> r[k].load == 1.0
    ensures 0.0 <= amount && servers[k].load <= 1.0 ==> servers[k].load <= r[k].load
    // the height tracks the load; capacity and placement never change
    ensures r[k].height == r[k].load * r[k].maxCapacity
    ensures r[k].maxCapacity == servers[k].maxCapacity && r[k].x == servers[k].x
    // every other server is untouched
    ensures forall i :: 0 <= i < |servers| && i != k ==> r[i] == servers[i]
    // at most one server is appended, exactly when the target is full and the
    // fleet is below the cap, and it is a fresh server at the next slot
    ensures |r| == |servers| + 1 <==> Grows(r[k], |servers|)
    ensures |r| == |servers| + 1 ==> r[|servers|] == FreshServer(|servers|)
    ensures |servers| <= MaxServers ==> |r| <= MaxServers
  {
    var s := servers[k];
    var load := if s.load + amount > 1.0 then 1.0 else s.load + amount;
    var updated := s.(load := load, height := load * s.maxCapacity);
    var fleet := servers[k := updated];
    if Grows(updated, |servers|) then fleet + [FreshServer(|servers|)] else fleet
  }

  /** For a server of positive capacity, "height reached capacity" means exactly
      "load saturated": the fleet grows iff old load plus amount reaches 1.0 and
      fewer than five servers exist. */
  lemma GrowsIffSaturated(servers: seq<Server>, k: nat, amount: real)
    requires k < |servers|
    requires 0.0 < servers[k].maxCapacity
    ensures |IncreaseLoad(servers, k, amount)| == |servers| + 1
        <==> servers[k].load + amount >= 1.0 && |servers| < MaxServers
  {
  }

  /** `increaseLoad` applied `n` times to the same server. */
  function BumpTimes(servers: seq<Server>, k: nat, amount: real, n: nat): (r: seq<Server>)
    requires k < |servers|
    ensures k < |r| && |servers| <= |r| <= |servers| + n
    ensures |servers| <= MaxServers ==> |r| <= MaxServers
    decreases n
  {
    if n == 0 then servers
    else IncreaseLoad(BumpTimes(servers, k, amount, n - 1), k, amount)
  }

  /** Repeated non-negative increments of one server keep its load in [0, 1],
      its height equal to load times capacity once touched, and the fleet within
      the cap. */
  lemma {:induction false} BumpTimesBounded(servers: seq<Server>, k: nat, amount: real, n: nat)
    requires k < |servers| <= MaxServers
    requires 0.0 <= amount
    requires 0.0 <= servers[k].load <= 1.0
    ensures var r := BumpTimes(servers, k, amount, n);
      && |r| <= MaxServers
      && 0.0 <= r[k].load <= 1.0
      && (n > 0 ==> r[k].height == r[k].load * r[k].maxCapacity)
    decreases n
  {
    if n > 0 {
      BumpTimesBounded(servers, k, amount, n - 1);
      var prev := BumpTimes(servers, k, amount, n - 1);
      assert |prev| <= MaxServers && 0.0 <= prev[k].load <= 1.0;
      var r := IncreaseLoad(prev, k, amount);
      assert BumpTimes(servers, k, amount, n) == r;
      assert prev[k].load <= r[k].load;
    }
  }

  /** From the single initial server, ten bumps of 0.1 saturate it and add
      exactly one server at x = -0.3; thirteen bumps fill the fleet to five,
      and the fourteenth and fifteenth keep it at five. */
  lemma InitialServerSaturation()
    ensures var r := BumpTimes([FreshServer(0)], 0, LoadStep, 10);
      |r| == 2 && r[0].load == 1.0 && r[1] == FreshServer(1) && r[1].x == -0.3
    ensures |BumpTimes([FreshServer(0)], 0, LoadStep, 13)| == MaxServers
    ensures |BumpTimes([FreshServer(0)], 0, LoadStep, 14)| == MaxServers
    ensures |BumpTimes([FreshServer(0)], 0, LoadStep, 15)| == MaxServers
  {
    var s0 := [FreshServer(0)];
    var r9 := BumpTimes(s0, 0, LoadStep, 9);
    SingleBelowFull(9);
    assert |r9| == 1 && r9[0].load == 0.9;
    var r10 := BumpTimes(s0, 0, LoadStep, 10);
    assert r10 == IncreaseLoad(r9, 0, LoadStep);
    assert |r10| == 2;
    var r11 := IncreaseLoad(r10, 0, LoadStep);
    var r12 := IncreaseLoad(r11, 0, LoadStep);
    var r13 := IncreaseLoad(r12, 0, LoadStep);
    var r14 := IncreaseLoad(r13, 0, LoadStep);
    assert |r11| == 3 && |r12| == 4 && |r13| == 5 && |r14| == 5;
    assert BumpTimes(s0, 0, LoadStep, 11) == r11;
    assert BumpTimes(s0, 0, LoadStep, 12) == r12;
    assert BumpTimes(s0, 0, LoadStep, 13) == r13;
    assert BumpTimes(s0, 0, LoadStep, 14) == r14;
  }

  /** Below ten bumps the initial server is not yet full: it carries n tenths of
      load and the fleet has not grown. */
  lemma {:induction false} SingleBelowFull(n: nat)
    requires n <= 9
    ensures var r := BumpTimes([FreshServer(0)], 0, LoadStep, n);
      |r| == 1 && r[0].load == (n as real) * LoadStep
      && r[0].maxCapacity == InitialMaxCapacity
    decreases n
  {
    if n > 0 {
      SingleBelowFull(n - 1);
    }
  }
}
