/** `RoundRobin`: a registry plus an unsigned 64-bit cursor; each `Balance`
    call serves `hosts[i mod |hosts|]` and advances the cursor. */
module RoundRobinBalancing {
  import opened Errors
  import opened HostList
  import opened BaseBalancing

  const TWO_TO_THE_64: int := 0x1_0000_0000_0000_0000

  /** Go's `uint64`. */
  type uint64 = x: int | 0 <= x < TWO_TO_THE_64

  /** `r.i++` on a `uint64`: one more, wrapping to 0 after the largest value. */
  function Next(i: uint64): (j: uint64)
    ensures i < TWO_TO_THE_64 - 1 ==> j == i + 1
    ensures i == TWO_TO_THE_64 - 1 ==> j == 0
  {
    (i + 1) % TWO_TO_THE_64
  }

  /** What `Balance` returns with cursor `i`: `NoHostError` on an empty list,
      otherwise the host at `i mod |hosts|`. The key plays no part. */
  function Choose(hosts: seq<string>, i: uint64): (r: Result<string>)
    ensures r == Failure(NoHost) <==> |hosts| == 0
    ensures r.Success? <==> |hosts| > 0
    ensures r.Success? ==> r.value in hosts
  {
    if |hosts| == 0 then Failure(NoHost) else Success(hosts[i % |hosts|])
  }

  /** The cursor after `Balance` with cursor `i`: unchanged on the error
      path, otherwise advanced with wrap-around. */
  function Cursor(hosts: seq<string>, i: uint64): (c: uint64)
    ensures c == i <==> |hosts| == 0
  {
    if |hosts| == 0 then i else Next(i)
  }

  /** The results of `n` consecutive `Balance` calls from cursor `i`, with no
      `Add` or `Remove` in between. */
  function Run(hosts: seq<string>, i: uint64, n: nat): (r: seq<Result<string>>)
    ensures |r| == n
    ensures forall k :: 0 <= k < n ==> (r[k].Success? <==> |hosts| > 0)
    ensures forall k :: 0 <= k < n && r[k].Success? ==> r[k].value in hosts
    decreases n
  {
    if n == 0 then [] else [Choose(hosts, i)] + Run(hosts, Cursor(hosts, i), n - 1)
  }

  /** Each host of the list, as a successful `Balance` result. */
  function Successes(hosts: seq<string>): (r: seq<Result<string>>)
    ensures |r| == |hosts|
    ensures forall k :: 0 <= k < |hosts| ==> r[k] == Success(hosts[k])
  {
    if hosts == [] then [] else [Success(hosts[0])] + Successes(hosts[1..])
  }

  /** The list read from position `r` round to position `r - 1`. */
  function Rotate(hosts: seq<string>, r: nat): seq<string>
    requires r <= |hosts|
  {
    hosts[r..] + hosts[..r]
  }

  // -------------------------------------------------------- the cursor alone

  /** On an empty list every call fails with `NoHostError`. */
  lemma {:induction false} RunNoHosts(hosts: seq<string>, i: uint64, n: nat)
    requires |hosts| == 0
    ensures forall k :: 0 <= k < n ==> Run(hosts, i, n)[k] == Failure(NoHost)
  {
    if n > 0 {
      RunNoHosts(hosts, i, n - 1);
      assert Run(hosts, i, n) == [Failure(NoHost)] + Run(hosts, i, n - 1);
    }
  }

  /** The cursor after `k` increments from `i`, with `uint64` wrap-around. */
  function Advanced(i: uint64, k: nat): uint64
  {
    (i + k) % TWO_TO_THE_64
  }

  /** One increment followed by `k - 1` more is `k` increments. */
  lemma AdvancedStep(i: uint64, k: nat)
    requires k > 0
    ensures Advanced(Next(i), k - 1) == Advanced(i, k)
  {
    if i == TWO_TO_THE_64 - 1 {
      ModPlusModulus(k - 1, TWO_TO_THE_64);
      assert Next(i) + (k - 1) == k - 1 && i + k == (k - 1) + TWO_TO_THE_64;
    } else {
      assert Next(i) + (k - 1) == i + k;
    }
  }

  /** Call `k` of a run from cursor `i` serves the host under the cursor
      advanced `k` times, wrap-around included. */
  lemma {:induction false} RunAtWrapped(hosts: seq<string>, i: uint64, n: nat, k: nat)
    requires |hosts| > 0 && k < n
    ensures Run(hosts, i, n)[k] == Success(hosts[Advanced(i, k) % |hosts|])
    decreases k
  {
    var run := Run(hosts, i, n);
    if k == 0 {
      assert run[0] == Choose(hosts, i);
      assert Advanced(i, 0) == i;
    } else {
      assert run[k] == Run(hosts, Next(i), n - 1)[k - 1];
      RunAtWrapped(hosts, Next(i), n - 1, k - 1);
      AdvancedStep(i, k);
    }
  }

  /** Without a wrap of the cursor, call `k` of a run from cursor `i` serves
      the host at `(i + k) mod |hosts|`. */
  lemma RunAt(hosts: seq<string>, i: uint64, n: nat, k: nat)
    requires |hosts| > 0 && i + n <= TWO_TO_THE_64 && k < n
    ensures Run(hosts, i, n)[k] == Success(hosts[(i + k) % |hosts|])
  {
    RunAtWrapped(hosts, i, n, k);
    assert Advanced(i, k) == i + k;
  }

  /** A positive multiple of `n` is at least `n`. */
  lemma MulAtLeast(n: int, x: int)
    requires n >= 0 && x >= 1
    ensures n * x >= n
  {
  }

  /** The only multiple of `n` strictly between `-n` and `n` is zero. */
  lemma MulZero(n: int, x: int)
    requires n > 0 && -n < n * x < n
    ensures x == 0
  {
    if x >= 1 {
      MulAtLeast(n, x);
    }
  }

  /** `(n * q + m) mod n == m` for `m < n`. */
  lemma ModAfterMultiple(q: nat, n: nat, m: nat)
    requires m < n
    ensures (n * q + m) % n == m
  {
    var a := n * q + m;
    var d := a / n;
    var r := a % n;
    assert a == n * d + r && 0 <= r < n;
    assert n * (d - q) == m - r;
    MulZero(n, d - q);
  }

  /** Adding the modulus does not change the remainder. */
  lemma ModPlusModulus(x: nat, n: nat)
    requires n > 0
    ensures (x + n) % n == x % n
  {
    var q, r := x / n, x % n;
    assert x == n * q + r;
    assert x + n == n * (q + 1) + r;
    ModAfterMultiple(q, n, r);
    ModAfterMultiple(q + 1, n, r);
  }

  /** Stepping `j < n` places on from `i` lands `j` places after `i mod n`,
      counted round the end. */
  lemma ShiftedIndex(i: nat, j: nat, n: nat)
    requires j < n
    ensures (i + j) % n == if i % n + j < n then i % n + j else i % n + j - n
  {
    var q, r := i / n, i % n;
    assert i == n * q + r;
    if r + j < n {
      ModAfterMultiple(q, n, r + j);
    } else {
      assert i + j == n * (q + 1) + (r + j - n);
      ModAfterMultiple(q + 1, n, r + j - n);
    }
  }

  /** Without a wrap, any `|hosts|` consecutive calls serve the list rotated
      to start at the cursor's position: every entry once, in list order. */
  lemma RunRotation(hosts: seq<string>, i: uint64)
    requires |hosts| > 0 && i + |hosts| <= TWO_TO_THE_64
    ensures Run(hosts, i, |hosts|) == Successes(Rotate(hosts, i % |hosts|))
    ensures multiset(Rotate(hosts, i % |hosts|)) == multiset(hosts)
    ensures forall h :: h in hosts ==> Success(h) in Run(hosts, i, |hosts|)
  {
    var n := |hosts|;
    var r := i % n;
    var rot := Rotate(hosts, r);
    var run := Run(hosts, i, n);
    var want := Successes(rot);
    forall j | 0 <= j < n ensures run[j] == want[j] {
      RunAt(hosts, i, n, j);
      ShiftedIndex(i, j, n);
    }
    assert run == want;
    assert hosts == hosts[..r] + hosts[r..];
    forall h | h in hosts ensures Success(h) in run {
      var k :| 0 <= k < n && hosts[k] == h;
      var j := if k >= r then k - r else k + (n - r);
      assert rot[j] == h;
      assert want[j] == Success(h);
    }
  }

  /** Round-robin fairness: from cursor 0, `N` calls serve the `N` hosts
      exactly in list order, and call `N + 1` serves the first host again. */
  lemma RunFromZero(hosts: seq<string>)
    requires 0 < |hosts| < TWO_TO_THE_64
    ensures Run(hosts, 0, |hosts|) == Successes(hosts)
    ensures Run(hosts, 0, |hosts| + 1)[|hosts|] == Success(hosts[0])
  {
    var n := |hosts|;
    RunRotation(hosts, 0);
    ModAfterMultiple(0, n, 0);
    assert n * 0 + 0 == 0;
    assert Rotate(hosts, 0) == hosts;
    RunAt(hosts, 0, n + 1, n);
    ModAfterMultiple(1, n, 0);
    assert n * 1 + 0 == 0 + n;
  }

  /** The rotation is exact only between wraps of the cursor: with three
      hosts, the call at the largest cursor value and the call after it
      (cursor 0) both serve the first host. */
  lemma WrapRepeatsHost(hosts: seq<string>)
    requires |hosts| == 3
    ensures Run(hosts, TWO_TO_THE_64 - 1, 2) == [Success(hosts[0]), Success(hosts[0])]
  {
    var top: uint64 := TWO_TO_THE_64 - 1;
    RunAtWrapped(hosts, top, 2, 0);
    RunAtWrapped(hosts, top, 2, 1);
    assert Advanced(top, 0) % 3 == 0 && Advanced(top, 1) == 0;
  }

  // ---------------------------------------------------------------- the class

  class RoundRobin {
    /** The embedded registry. */
    const base: BaseBalancer
    /** The request counter; `i mod |hosts|` is the next host's position. */
    var i: uint64

    /** `NewRoundRobin(hosts)`: the list as given, cursor 0. */
    constructor (hosts: seq<string>)
      ensures fresh(base)
      ensures base.hosts == hosts && i == 0
    {
      base := new BaseBalancer(hosts);
      i := 0;
    }

    /** Inherited `Add`; the cursor is untouched. */
    method Add(host: string)
      modifies base
      ensures base.hosts == Added(old(base.hosts), host)
      ensures i == old(i)
    {
      base.Add(host);
    }

    /** Inherited `Remove`; the cursor is untouched. */
    method Remove(host: string)
      modifies base
      ensures base.hosts == Removed(old(base.hosts), host)
      ensures i == old(i)
    {
      base.Remove(host);
    }

    /** Serve the host under the cursor and advance the cursor. The key is
        ignored. On an empty list: `""` with `NoHostError`, cursor kept. */
    method Balance(key: string) returns (host: string, err: Option<Error>)
      modifies this`i
      ensures base.hosts == old(base.hosts)
      ensures |base.hosts| == 0 ==> host == "" && err == Some(NoHost) && i == old(i)
      ensures |base.hosts| > 0 ==>
        err == None && host in base.hosts && host == base.hosts[old(i) % |base.hosts|] && i == Next(old(i))
      ensures err == None ==> Choose(base.hosts, old(i)) == Success(host)
      ensures err != None ==> Choose(base.hosts, old(i)) == Failure(err.value)
      ensures i == Cursor(base.hosts, old(i))
    {
      if |base.hosts| == 0 {
        return "", Some(NoHost);
      }
      host := base.hosts[i % |base.hosts|];
      i := Next(i);
      err := None;
    }

    /** Inherited no-op `Inc`. */
    method Inc(host: string)
      ensures unchanged(this, base)
    {
      base.Inc(host);
    }

    /** Inherited no-op `Done`. */
    method Done(host: string)
      ensures unchanged(this, base)
    {
      base.Done(host);
    }
  }

  /** Two hosts, three calls, then the first host removed and one more call. */
  method TwoHostScenario() returns (first: string, second: string, third: string, afterRemove: string)
    ensures first == "10.0.0.1:80" && second == "10.0.0.2:80" && third == "10.0.0.1:80"
    ensures afterRemove == "10.0.0.2:80"
  {
    var lb := new RoundRobin(["10.0.0.1:80", "10.0.0.2:80"]);
    var err;
    first, err := lb.Balance("");
    second, err := lb.Balance("");
    third, err := lb.Balance("");
    lb.Remove("10.0.0.1:80");
    assert lb.base.hosts == ["10.0.0.2:80"];
    afterRemove, err := lb.Balance("");
  }
}
