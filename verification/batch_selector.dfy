/**
 * The batch selector: the pending hosts are the hosts of `hosts.txt` whose id
 * is not in the set of deployed ids, in their original order, and a batch is
 * a prefix of the pending list taken with Python's slice `pending[:n]`.
 */
module BatchSelector {
  import opened HostFiles

  /** The set built from a host list (`set(deployed_hosts)`). */
  function SetOf(hosts: seq<HostId>): set<HostId>
  {
    set h | h in hosts
  }

  /** The comprehension `[host for host in allHosts if host not in deployedSet]`. */
  function Pending(allHosts: seq<HostId>, deployedSet: set<HostId>): (pending: seq<HostId>)
    ensures |pending| <= |allHosts|
    ensures forall h :: h in pending ==> h in allHosts && h !in deployedSet
  {
    if allHosts == [] then []
    else (if allHosts[0] in deployedSet then [] else [allHosts[0]]) + Pending(allHosts[1..], deployedSet)
  }

  /** The number of entries of `hosts` that are not in `deployedSet`. */
  function CountUndeployed(hosts: seq<HostId>, deployedSet: set<HostId>): nat
  {
    if hosts == [] then 0
    else (if hosts[0] in deployedSet then 0 else 1) + CountUndeployed(hosts[1..], deployedSet)
  }

  /** Filtering a concatenation filters each part, keeping their order. */
  lemma {:induction false} PendingAppend(a: seq<HostId>, b: seq<HostId>, deployedSet: set<HostId>)
    ensures Pending(a + b, deployedSet) == Pending(a, deployedSet) + Pending(b, deployedSet)
  {
    if a == [] {
      assert a + b == b;
    } else {
      assert (a + b)[1..] == a[1..] + b;
      PendingAppend(a[1..], b, deployedSet);
    }
  }

  /** Every entry not yet deployed is kept, duplicates included. */
  lemma {:induction false} PendingLength(allHosts: seq<HostId>, deployedSet: set<HostId>)
    ensures |Pending(allHosts, deployedSet)| == CountUndeployed(allHosts, deployedSet)
  {
    if allHosts != [] {
      PendingLength(allHosts[1..], deployedSet);
    }
  }

  /**
   * An undeployed entry at index `i` lands at the position given by the number
   * of undeployed entries before it: the pending list keeps the order of
   * `allHosts`. With PendingLength, this accounts for every pending entry.
   */
  lemma {:induction false} PendingAt(allHosts: seq<HostId>, deployedSet: set<HostId>, i: nat)
    requires i < |allHosts| && allHosts[i] !in deployedSet
    ensures CountUndeployed(allHosts[..i], deployedSet) < |Pending(allHosts, deployedSet)|
    ensures Pending(allHosts, deployedSet)[CountUndeployed(allHosts[..i], deployedSet)] == allHosts[i]
  {
    assert allHosts == allHosts[..i] + ([allHosts[i]] + allHosts[i + 1..]);
    PendingAppend(allHosts[..i], [allHosts[i]] + allHosts[i + 1..], deployedSet);
    PendingAppend([allHosts[i]], allHosts[i + 1..], deployedSet);
    PendingLength(allHosts[..i], deployedSet);
    assert [allHosts[i]][1..] == [];
    assert Pending([allHosts[i]], deployedSet) == [allHosts[i]];
  }

  /** A host is pending exactly when it is listed and not deployed. */
  lemma {:induction false} PendingMembership(allHosts: seq<HostId>, deployedSet: set<HostId>, h: HostId)
    ensures h in Pending(allHosts, deployedSet) <==> h in allHosts && h !in deployedSet
  {
    if allHosts != [] {
      PendingMembership(allHosts[1..], deployedSet, h);
      assert allHosts == [allHosts[0]] + allHosts[1..];
    }
  }

  /**
   * Each host occurs in the pending list as often as in `allHosts`, unless it
   * is deployed, in which case it does not occur at all.
   */
  lemma {:induction false} PendingMultiplicity(allHosts: seq<HostId>, deployedSet: set<HostId>, h: HostId)
    ensures multiset(Pending(allHosts, deployedSet))[h] == if h in deployedSet then 0 else multiset(allHosts)[h]
  {
    if allHosts != [] {
      PendingMultiplicity(allHosts[1..], deployedSet, h);
      assert allHosts == [allHosts[0]] + allHosts[1..];
    }
  }

  /** Filtering by two sets is filtering by one and then by the other. */
  lemma {:induction false} PendingNested(allHosts: seq<HostId>, d: set<HostId>, e: set<HostId>)
    ensures Pending(allHosts, d + e) == Pending(Pending(allHosts, d), e)
  {
    if allHosts != [] {
      PendingNested(allHosts[1..], d, e);
      PendingAppend(if allHosts[0] in d then [] else [allHosts[0]], Pending(allHosts[1..], d), e);
    }
  }

  /** Nothing is pending when every listed host is deployed. */
  lemma {:induction false} PendingAllDeployed(allHosts: seq<HostId>, deployedSet: set<HostId>)
    requires forall h :: h in allHosts ==> h in deployedSet
    ensures Pending(allHosts, deployedSet) == []
  {
    if allHosts != [] {
      PendingAllDeployed(allHosts[1..], deployedSet);
    }
  }

  /**
   * Marking the first `k` entries of a list as deployed removes at least `k`
   * entries from it.
   */
  lemma PendingShrinks(pending: seq<HostId>, k: nat)
    requires k <= |pending|
    ensures |Pending(pending, SetOf(pending[..k]))| <= |pending| - k
  {
    assert pending == pending[..k] + pending[k..];
    PendingAppend(pending[..k], pending[k..], SetOf(pending[..k]));
    PendingAllDeployed(pending[..k], SetOf(pending[..k]));
  }

  /** Repeated entries in the deployed list have no effect: only its set is consulted. */
  lemma DuplicateDeployedEntries(allHosts: seq<HostId>, deployed: seq<HostId>, h: HostId)
    requires h in deployed
    ensures Pending(allHosts, SetOf(deployed + [h])) == Pending(allHosts, SetOf(deployed))
  {
    assert SetOf(deployed + [h]) == SetOf(deployed);
  }

  function Min(a: int, b: int): int { if a <= b then a else b }

  function Max(a: int, b: int): int { if a <= b then b else a }

  /**
   * Python's slice `s[:stop]`: a prefix of `s`, of length `stop` capped at
   * `|s|` when `stop` is not negative, and `|s| + stop` floored at zero when it
   * is.
   */
  function Take(s: seq<HostId>, stop: int): (batch: seq<HostId>)
    ensures batch <= s
    ensures |batch| == if stop >= 0 then Min(stop, |s|) else Max(0, |s| + stop)
  {
    if stop >= 0 then (if stop <= |s| then s[..stop] else s)
    else if |s| + stop > 0 then s[..|s| + stop]
    else []
  }
}
