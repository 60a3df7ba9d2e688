/** `BaseBalancer`: the host registry that every strategy embeds, giving the
    shared `Add`/`Remove` and the default no-op `Balance`, `Inc` and `Done`.
    The read/write lock is not modelled: each call is one atomic step. */
module BaseBalancing {
  import opened Errors
  import opened HostList

  class BaseBalancer {
    /** The backend hosts, in registration order. */
    var hosts: seq<string>

    /** The struct literal `BaseBalancer{hosts: hosts}`: the list is taken as
        given, duplicates included. */
    constructor (hosts: seq<string>)
      ensures this.hosts == hosts
    {
      this.hosts := hosts;
    }

    /** Scan for `host`; stop if it is found, otherwise append it. */
    method Add(host: string)
      modifies this
      ensures host in old(hosts) ==> hosts == old(hosts)
      ensures host !in old(hosts) ==> hosts == old(hosts) + [host]
      ensures hosts == Added(old(hosts), host)
    {
      for k := 0 to |hosts|
        invariant host !in hosts[..k]
      {
        if hosts[k] == host {
          return;
        }
      }
      assert hosts[..|hosts|] == hosts;
      hosts := hosts + [host];
    }

    /** Scan for `host`; splice out the first match and stop. Absent hosts
        are silently ignored. */
    method Remove(host: string)
      modifies this
      ensures host !in old(hosts) ==> hosts == old(hosts)
      ensures host in old(hosts) ==>
        var k := FirstIndex(old(hosts), host);
        hosts == old(hosts)[..k] + old(hosts)[k + 1..]
      ensures hosts == Removed(old(hosts), host)
    {
      for k := 0 to |hosts|
        invariant hosts == old(hosts)
        invariant host !in hosts[..k]
      {
        if hosts[k] == host {
          RemovedSplice(hosts, host, k);
          RemovedFirst(hosts, host);
          hosts := hosts[..k] + hosts[k + 1..];
          return;
        }
      }
      assert hosts[..|hosts|] == hosts;
      RemovedAbsent(hosts, host);
    }

    /** The default selection: always the empty host and no error. */
    method Balance(key: string) returns (host: string, err: Option<Error>)
      ensures host == "" && err == None
    {
      host, err := "", None;
    }

    /** The default start-of-request notification: does nothing. */
    method Inc(host: string)
      ensures unchanged(this)
    {
    }

    /** The default end-of-request notification: does nothing. */
    method Done(host: string)
      ensures unchanged(this)
    {
    }
  }
}
