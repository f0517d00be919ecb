/**
 * The "animate once" gate shared by the radar entrance and the number
 * counters: an intersection observer callback receives a batch of entries;
 * the first intersecting entry seen while the flag is clear sets the flag and
 * runs the animation, and nothing runs again once the flag is set.
 */
module OneShot {

  /** What a batch of entries does to the flag: the flag afterwards, and how many times the animation ran. */
  datatype Fired = Fired(flag: bool, runs: nat)

  predicate AnyIntersecting(entries: seq<bool>) {
    exists k :: 0 <= k < |entries| && entries[k]
  }

  /** The callback's `forEach` over `entries`, with `isIntersecting && !animated` as the guard. */
  function Deliver(flag: bool, entries: seq<bool>): (r: Fired)
    ensures r.runs <= 1
    ensures flag ==> r == Fired(true, 0)
    decreases |entries|
  {
    if entries == [] then Fired(flag, 0)
    else
      var run := entries[0] && !flag;
      var rest := Deliver(flag || entries[0], entries[1..]);
      Fired(rest.flag, rest.runs + if run then 1 else 0)
  }

  /**
   * The animation runs exactly when the flag was clear and some entry
   * intersects, and the flag ends set exactly when it was set already or
   * some entry intersects.
   */
  lemma {:induction false} DeliverOnce(flag: bool, entries: seq<bool>)
    ensures Deliver(flag, entries).runs == 1 <==> !flag && AnyIntersecting(entries)
    ensures Deliver(flag, entries).flag <==> flag || AnyIntersecting(entries)
    decreases |entries|
  {
    if entries != [] {
      DeliverOnce(flag || entries[0], entries[1..]);
      if AnyIntersecting(entries[1..]) {
        var k :| 0 <= k < |entries[1..]| && entries[1..][k];
        assert entries[k + 1];
      }
      if AnyIntersecting(entries) && !entries[0] {
        var k :| 0 <= k < |entries| && entries[k];
        assert entries[1..][k - 1];
      }
    }
  }

  /** Over several batches delivered one after another, the animation runs at most once in all. */
  function DeliverAll(flag: bool, batches: seq<seq<bool>>): Fired
    decreases |batches|
  {
    if batches == [] then Fired(flag, 0)
    else
      var first := Deliver(flag, batches[0]);
      var rest := DeliverAll(first.flag, batches[1..]);
      Fired(rest.flag, first.runs + rest.runs)
  }

  lemma {:induction false} DeliverAllOnce(flag: bool, batches: seq<seq<bool>>)
    ensures DeliverAll(flag, batches).runs <= 1
    ensures flag ==> DeliverAll(flag, batches) == Fired(true, 0)
    decreases |batches|
  {
    if batches != [] {
      DeliverOnce(flag, batches[0]);
      DeliverAllOnce(Deliver(flag, batches[0]).flag, batches[1..]);
      if Deliver(flag, batches[0]).runs == 1 {
        assert Deliver(flag, batches[0]).flag;
      }
    }
  }

  /** The number counters: `countersAnimated` and how many times the counting animation was started. */
  class CounterGate {
    var countersAnimated: bool
    var started: nat

    constructor ()
      ensures !countersAnimated && started == 0
    {
      countersAnimated := false;
      started := 0;
    }

    /** The counter observer's callback on one batch of entries. */
    method OnEntries(entries: seq<bool>)
      modifies this
      ensures countersAnimated == Deliver(old(countersAnimated), entries).flag
      ensures started == old(started) + Deliver(old(countersAnimated), entries).runs
      ensures old(countersAnimated) ==> countersAnimated && started == old(started)
    {
      var k := 0;
      while k < |entries|
        invariant 0 <= k <= |entries|
        invariant started >= old(started)
        invariant Deliver(old(countersAnimated), entries)
          == var rest := Deliver(countersAnimated, entries[k..]);
             Fired(rest.flag, started - old(started) + rest.runs)
      {
        assert entries[k..][1..] == entries[k + 1..];
        if entries[k] && !countersAnimated {
          countersAnimated := true;
          started := started + 1;
        }
        k := k + 1;
      }
    }
  }
}
