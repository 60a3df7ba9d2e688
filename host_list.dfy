/** The ordered host list that a balancer keeps, as a value: what `Add` and
    `Remove` of `BaseBalancer` do to it, and the properties they keep. */
module HostList {

  /** No host occurs twice. */
  predicate NoDup(hosts: seq<string>)
  {
    forall i, j :: 0 <= i < j < |hosts| ==> hosts[i] != hosts[j]
  }

  /** The set of hosts in the list, order forgotten. */
  function Elements(hosts: seq<string>): set<string>
  {
    set h | h in hosts
  }

  /** The list after `Add(host)`: unchanged if `host` is already there,
      otherwise `host` appended at the end. */
  function Added(hosts: seq<string>, host: string): (r: seq<string>)
    ensures |r| == if host in hosts then |hosts| else |hosts| + 1
    ensures r[..|hosts|] == hosts
    ensures host in r
  {
    if host in hosts then hosts else hosts + [host]
  }

  /** The list after `Remove(host)`: the first entry equal to `host` is
      dropped, everything else stays in order. */
  function Removed(hosts: seq<string>, host: string): (r: seq<string>)
    ensures |r| == if host in hosts then |hosts| - 1 else |hosts|
    ensures forall h :: h in r ==> h in hosts
  {
    if hosts == [] then []
    else if hosts[0] == host then hosts[1..]
    else [hosts[0]] + Removed(hosts[1..], host)
  }

  /** The position of the first entry equal to `host`: the entry that the
      scan in `Remove` stops at. */
  function FirstIndex(hosts: seq<string>, host: string): (k: nat)
    requires host in hosts
    ensures k < |hosts| && hosts[k] == host
    ensures host !in hosts[..k]
  {
    if hosts[0] == host then 0
    else
      var k' := FirstIndex(hosts[1..], host);
      assert hosts[..k' + 1] == [hosts[0]] + hosts[1..][..k'];
      k' + 1
  }

  // ---------------------------------------------------------------- Add

  /** Adding a host that is present changes nothing; adding one that is
      absent appends it and keeps every earlier entry in place. */
  lemma AddedCases(hosts: seq<string>, host: string)
    ensures host in hosts ==> Added(hosts, host) == hosts
    ensures host !in hosts ==> |Added(hosts, host)| == |hosts| + 1
    ensures host !in hosts ==> Added(hosts, host)[..|hosts|] == hosts && Added(hosts, host)[|hosts|] == host
    ensures host in Added(hosts, host)
  {
    if host !in hosts {
      assert (hosts + [host])[..|hosts|] == hosts;
    }
  }

  /** `Add(h); Add(h)` leaves the same list as `Add(h)`. */
  lemma AddedIdempotent(hosts: seq<string>, host: string)
    ensures Added(Added(hosts, host), host) == Added(hosts, host)
  {
    AddedCases(hosts, host);
  }

  /** `Add` keeps the no-duplicates invariant. */
  lemma AddedNoDup(hosts: seq<string>, host: string)
    requires NoDup(hosts)
    ensures NoDup(Added(hosts, host))
  {
    if host !in hosts {
      var r := hosts + [host];
      forall i, j | 0 <= i < j < |r| ensures r[i] != r[j] {
        if j == |hosts| {
          assert r[i] == hosts[i];
        }
      }
    }
  }

  /** `Add` adds exactly `host` to the set of hosts. */
  lemma AddedElements(hosts: seq<string>, host: string)
    ensures Elements(Added(hosts, host)) == Elements(hosts) + {host}
  {
    AddedCases(hosts, host);
  }

  // ------------------------------------------------------------- Remove

  /** Removing an absent host changes nothing. */
  lemma {:induction false} RemovedAbsent(hosts: seq<string>, host: string)
    requires host !in hosts
    ensures Removed(hosts, host) == hosts
  {
    if hosts != [] {
      assert hosts[0] != host;
      assert host !in hosts[1..];
      RemovedAbsent(hosts[1..], host);
      assert hosts == [hosts[0]] + hosts[1..];
    }
  }

  /** If the scan finds `host` first at position `k`, the list after
      `Remove(host)` is the splice `hosts[..k] + hosts[k+1..]`. */
  lemma {:induction false} RemovedSplice(hosts: seq<string>, host: string, k: nat)
    requires k < |hosts| && hosts[k] == host
    requires host !in hosts[..k]
    ensures Removed(hosts, host) == hosts[..k] + hosts[k + 1..]
  {
    if k == 0 {
      assert hosts[..0] == [];
    } else {
      assert hosts[0] in hosts[..k];
      assert hosts[0] != host;
      assert hosts[1..][..k - 1] == hosts[1..k];
      assert host !in hosts[1..][..k - 1];
      RemovedSplice(hosts[1..], host, k - 1);
      assert hosts[1..][k - 1 + 1..] == hosts[k + 1..];
      assert hosts[..k] == [hosts[0]] + hosts[1..k];
    }
  }

  /** When `host` is present, `Remove(host)` deletes exactly the first
      occurrence and keeps the relative order of all other entries. */
  lemma RemovedFirst(hosts: seq<string>, host: string)
    requires host in hosts
    ensures var k := FirstIndex(hosts, host); Removed(hosts, host) == hosts[..k] + hosts[k + 1..]
  {
    var k := FirstIndex(hosts, host);
    assert k < |hosts| && hosts[k] == host && host !in hosts[..k];
    RemovedSplice(hosts, host, k);
  }

  /** `Remove` takes away one copy of `host` if there is one, and touches no
      other host: as multisets, the new list is the old one minus `host`. */
  lemma {:induction false} RemovedMultiset(hosts: seq<string>, host: string)
    ensures multiset(Removed(hosts, host)) == multiset(hosts) - multiset{host}
    ensures |Removed(hosts, host)| == if host in hosts then |hosts| - 1 else |hosts|
  {
    if hosts != [] {
      assert hosts == [hosts[0]] + hosts[1..];
      if hosts[0] != host {
        RemovedMultiset(hosts[1..], host);
      }
    }
  }

  /** The spliced list of a duplicate-free list is duplicate-free and no
      longer holds the spliced-out entry. */
  lemma SpliceNoDup(hosts: seq<string>, k: nat)
    requires NoDup(hosts) && k < |hosts|
    ensures NoDup(hosts[..k] + hosts[k + 1..])
    ensures hosts[k] !in hosts[..k] + hosts[k + 1..]
  {
    var r := hosts[..k] + hosts[k + 1..];
    assert forall i :: 0 <= i < |r| ==> r[i] == hosts[if i < k then i else i + 1];
  }

  /** On a duplicate-free list, after `Remove(host)` the host is gone, the
      list is one shorter if it was there, and it is still duplicate-free. */
  lemma RemovedNoDup(hosts: seq<string>, host: string)
    requires NoDup(hosts)
    ensures NoDup(Removed(hosts, host))
    ensures host !in Removed(hosts, host)
    ensures |Removed(hosts, host)| == if host in hosts then |hosts| - 1 else |hosts|
    ensures Elements(Removed(hosts, host)) == Elements(hosts) - {host}
  {
    RemovedMultiset(hosts, host);
    if host in hosts {
      var k := FirstIndex(hosts, host);
      RemovedSplice(hosts, host, k);
      SpliceNoDup(hosts, k);
    } else {
      RemovedAbsent(hosts, host);
    }
    var r := Removed(hosts, host);
    forall h ensures h in Elements(r) <==> h in Elements(hosts) - {host} {
      assert h in r <==> multiset(r)[h] > 0;
      assert h in hosts <==> multiset(hosts)[h] > 0;
    }
  }

  /** `Remove` undoes an `Add` of a host that was absent. */
  lemma RemovedAfterAdded(hosts: seq<string>, host: string)
    requires host !in hosts
    ensures Removed(Added(hosts, host), host) == hosts
  {
    var r := hosts + [host];
    assert r[..|hosts|] == hosts;
    RemovedSplice(r, host, |hosts|);
    assert r[|hosts| + 1..] == [];
  }

  // ------------------------------------------------- sequences of updates

  /** One call of `Add` or `Remove` on the registry. */
  datatype Update = AddHost(host: string) | RemoveHost(host: string)

  /** The list after the updates, applied in order. */
  function Apply(hosts: seq<string>, updates: seq<Update>): (r: seq<string>)
    ensures |r| <= |hosts| + |updates|
    decreases |updates|
  {
    if updates == [] then hosts
    else
      var next := match updates[0]
        case AddHost(h) => Added(hosts, h)
        case RemoveHost(h) => Removed(hosts, h);
      Apply(next, updates[1..])
  }

  /** The set of hosts that the updates imply: adds insert, removes delete. */
  function NetHosts(hosts: set<string>, updates: seq<Update>): set<string>
    decreases |updates|
  {
    if updates == [] then hosts
    else
      var next := match updates[0]
        case AddHost(h) => hosts + {h}
        case RemoveHost(h) => hosts - {h};
      NetHosts(next, updates[1..])
  }

  /** Starting from a duplicate-free list, any sequence of `Add`/`Remove`
      calls leaves a duplicate-free list holding exactly the hosts that the
      net effect of the calls implies. */
  lemma {:induction false} ApplyNetHosts(hosts: seq<string>, updates: seq<Update>)
    requires NoDup(hosts)
    ensures NoDup(Apply(hosts, updates))
    ensures Elements(Apply(hosts, updates)) == NetHosts(Elements(hosts), updates)
    decreases |updates|
  {
    if updates != [] {
      match updates[0]
      case AddHost(h) =>
        AddedNoDup(hosts, h);
        AddedElements(hosts, h);
        ApplyNetHosts(Added(hosts, h), updates[1..]);
      case RemoveHost(h) =>
        RemovedNoDup(hosts, h);
        ApplyNetHosts(Removed(hosts, h), updates[1..]);
    }
  }
}
