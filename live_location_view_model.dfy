/**
 * The table of other riders' last positions (LiveLocationViewModel.swift): a dictionary
 * keyed by rider id that remote updates overwrite and that is pruned by timestamp, and
 * the published array of its values.
 */
module LiveRiders {
  import opened LiveLocationProtocol

  /** The default window of `pruneOlder(olderThan:)`, in seconds. */
  const DefaultPruneWindow: real := 60.0

  /** Every entry is stored under its own rider id. */
  ghost predicate Keyed(m: map<string, RiderLocation>) {
    forall k :: k in m ==> m[k].riderId == k
  }

  /** `rs` is `Array(m.values)`: each value of `m` once, in some order. */
  ghost predicate ListsValues(rs: seq<RiderLocation>, m: map<string, RiderLocation>) {
    && |rs| == |m|
    && (forall i :: 0 <= i < |rs| ==> rs[i].riderId in m && m[rs[i].riderId] == rs[i])
    && (forall k :: k in m ==> m[k] in rs)
    && (forall i, j :: 0 <= i < j < |rs| ==> rs[i].riderId != rs[j].riderId)
  }

  /** The filter of `pruneOlder`: the entries stamped at or after the cutoff. */
  function StampedSince(m: map<string, RiderLocation>, cutoff: real): (r: map<string, RiderLocation>)
    ensures forall k :: k in r <==> k in m && m[k].timestamp >= cutoff
    ensures forall k :: k in r ==> r[k] == m[k]
  {
    map k | k in m && m[k].timestamp >= cutoff :: m[k]
  }

  /** Pruning twice with the same cutoff removes nothing more. */
  lemma PruneIdempotent(m: map<string, RiderLocation>, cutoff: real)
    ensures StampedSince(StampedSince(m, cutoff), cutoff) == StampedSince(m, cutoff)
  {
  }

  /** `Array(m.values)`: the order of a dictionary's values is unspecified, so any key may come next. */
  method Values(m: map<string, RiderLocation>) returns (rs: seq<RiderLocation>)
    requires Keyed(m)
    ensures ListsValues(rs, m)
  {
    rs := [];
    var left := m.Keys;
    while left != {}
      invariant left <= m.Keys
      invariant |rs| + |left| == |m|
      invariant forall i :: 0 <= i < |rs| ==> rs[i].riderId in m && rs[i].riderId !in left && m[rs[i].riderId] == rs[i]
      invariant forall k :: k in m && k !in left ==> m[k] in rs
      invariant forall i, j :: 0 <= i < j < |rs| ==> rs[i].riderId != rs[j].riderId
      decreases left
    {
      var k :| k in left;
      rs := rs + [m[k]];
      left := left - {k};
    }
  }

  class LiveLocationViewModel {
    var riders: seq<RiderLocation>
    var ridersMap: map<string, RiderLocation>

    ghost predicate Valid()
      reads this
    {
      Keyed(ridersMap) && ListsValues(riders, ridersMap)
    }

    constructor ()
      ensures Valid() && ridersMap == map[] && riders == []
    {
      riders := [];
      ridersMap := map[];
    }

    /** `applyRemoteUpdate`: the rider's entry is overwritten, every other key keeps its entry. */
    method ApplyRemoteUpdate(rider: RiderLocation)
      requires Valid()
      modifies this
      ensures Valid()
      ensures ridersMap == old(ridersMap)[rider.riderId := rider]
    {
      ridersMap := ridersMap[rider.riderId := rider];
      riders := Values(ridersMap);
    }

    /** `pruneOlder(olderThan:)`: keeps the entries stamped at or after `now - seconds`. */
    method PruneOlder(now: real, seconds: real := DefaultPruneWindow)
      requires Valid()
      modifies this
      ensures Valid()
      ensures ridersMap == StampedSince(old(ridersMap), now - seconds)
    {
      var pruned := StampedSince(ridersMap, now - seconds);
      assert Keyed(pruned);
      ridersMap := pruned;
      riders := Values(pruned);
    }
  }
}
