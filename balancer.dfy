/** The factory: a map from algorithm names to constructors, filled in by
    each algorithm's registration, and `Build`, which looks a name up and
    constructs the balancer. The map is an explicit value here rather than
    package-level state. */
module Factory {
  import opened Errors
  import opened RoundRobinBalancing

  /** A constructor a name can be registered with. Round-robin is the only
      strategy in the modelled files. */
  datatype Constructor = NewRoundRobin

  /** The `factories` map. */
  type Registry = map<string, Constructor>

  /** The name round-robin registers under; its text is defined outside the
      modelled files, so it is left unspecified. */
  const R2Balancer: string

  /** One registration, `factories[name] = ctor`: the name now maps to
      `ctor` and every other entry is kept. */
  function Register(factories: Registry, name: string, ctor: Constructor): (r: Registry)
    ensures r.Keys == factories.Keys + {name}
    ensures r[name] == ctor
    ensures forall n :: n in factories && n != name ==> r[n] == factories[n]
  {
    factories[name := ctor]
  }

  /** The map after the modelled initialisation: empty, then round-robin's
      registration. */
  function InitialFactories(): (r: Registry)
    ensures r.Keys == {R2Balancer}
  {
    Register(map[], R2Balancer, NewRoundRobin)
  }

  /** The lookup `factory, ok := factories[algorithm]`, with the miss turned
      into `AlgorithmNotSupportedError`. */
  function Lookup(factories: Registry, algorithm: string): (r: Result<Constructor>)
    ensures r.Failure? <==> algorithm !in factories
    ensures r.Failure? ==> r.error == AlgorithmNotSupported
    ensures r.Success? ==> r.value == factories[algorithm]
  {
    if algorithm in factories then Success(factories[algorithm]) else Failure(AlgorithmNotSupported)
  }

  /** In the initial map the round-robin name is the only one that resolves. */
  lemma InitialLookup(algorithm: string)
    ensures Lookup(InitialFactories(), R2Balancer) == Success(NewRoundRobin)
    ensures algorithm != R2Balancer ==> Lookup(InitialFactories(), algorithm) == Failure(AlgorithmNotSupported)
  {
  }

  /** `Build(algorithm, hosts)`: no balancer and `AlgorithmNotSupportedError`
      for an unregistered name; otherwise the registered constructor applied
      to `hosts`, and no error. The map is a value and is not changed. */
  method Build(factories: Registry, algorithm: string, hosts: seq<string>) returns (lb: RoundRobin?, err: Option<Error>)
    ensures algorithm !in factories ==> lb == null && err == Some(AlgorithmNotSupported)
    ensures algorithm in factories ==> err == None && lb != null
    ensures lb != null ==> fresh(lb) && fresh(lb.base) && lb.base.hosts == hosts && lb.i == 0
  {
    var found := Lookup(factories, algorithm);
    match found
    case Failure(e) =>
      return null, Some(e);
    case Success(ctor) =>
      match ctor
      case NewRoundRobin =>
        lb := new RoundRobin(hosts);
        err := None;
  }

  /** After initialisation, building the round-robin name gives a fresh
      round-robin balancer over `hosts` with cursor 0, and any other name
      fails with `AlgorithmNotSupportedError`. */
  method BuildInitial(algorithm: string, hosts: seq<string>) returns (lb: RoundRobin?, err: Option<Error>)
    ensures algorithm == R2Balancer ==> err == None && lb != null && lb.base.hosts == hosts && lb.i == 0
    ensures algorithm != R2Balancer ==> lb == null && err == Some(AlgorithmNotSupported)
  {
    lb, err := Build(InitialFactories(), algorithm, hosts);
  }
}
