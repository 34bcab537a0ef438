/** The dependency container (src/core/mioc/ServiceContainer.h, ServiceFactory.h): eager or
    lazy singletons and transients, resolved recursively through captured factories. */
module ServiceContainer {
  import opened Options

  type TypeId = nat

  /** A shared_ptr: null, an object the client made, or an object built by the container. */
  datatype Ref = Null | Given(id: nat) | Built(addr: nat)

  /** A captured factory: the registration (operation number) that made it, the concrete
      type it constructs and the services it passes to the constructor. */
  datatype Provider = Provider(reg: nat, concrete: nat, deps: seq<TypeId>)

  datatype Factory =
    | Transient(provider: Provider)
    | Singleton(instance: Ref, maker: Option<Provider>)

  /** A constructed object and the pointers its constructor received. */
  datatype Obj = Obj(maker: Provider, args: seq<Ref>)

  /** Where an object was asked for: by a singleton registration, or by a client call, and
      from there the argument positions down the chain of transients. A history variable:
      nothing the container does depends on it. */
  datatype Root = Once(reg: nat) | Asked(op: nat)
  datatype Step = Step(k: nat, reg: nat)
  datatype Name = Name(root: Root, path: seq<Step>)

  datatype State = State(services: map<TypeId, Factory>, heap: seq<Obj>, names: seq<Name>)

  const EMPTY := State(map[], [], [])

  type Rank = TypeId -> nat

  ghost predicate Below(rank: Rank, deps: seq<TypeId>, bound: nat) {
    forall d | d in deps :: rank(d) < bound
  }

  ghost predicate FactoryRanked(rank: Rank, t: TypeId, f: Factory) {
    match f
    case Transient(p) => Below(rank, p.deps, rank(t))
    case Singleton(_, maker) => maker.Some? ==> Below(rank, maker.value.deps, rank(t))
  }

  /** No service depends on itself, directly or not: every factory only asks for services of
      smaller rank. Without it the recursion of Resolve need not end. */
  ghost predicate Ranked(rank: Rank, services: map<TypeId, Factory>) {
    forall t | t in services :: FactoryRanked(rank, t, services[t])
  }

  // ----- what Resolve does

  ghost function Resolved(s: State, rank: Rank, t: TypeId, parent: Name, k: nat): (r: (State, Ref))
    requires Ranked(rank, s.services)
    ensures Ranked(rank, r.0.services)
    decreases rank(t), 1, 0
  {
    if t !in s.services then (s, Null)
    else
      var f := s.services[t];
      assert FactoryRanked(rank, t, f);
      match f
      case Transient(p) => Constructed(s, rank, rank(t), p, Name(parent.root, parent.path + [Step(k, p.reg)]))
      case Singleton(instance, maker) =>
        if instance != Null || maker.None? then (s, instance)
        else
          var (s', r) := Constructed(s, rank, rank(t), maker.value, Name(Once(maker.value.reg), []));
          var after := s'.(services := s'.services[t := Singleton(r, maker)]);
          assert FactoryRanked(rank, t, Singleton(r, maker));
          (after, r)
  }

  /** make_shared with every dependency resolved first. */
  ghost function Constructed(s: State, rank: Rank, bound: nat, p: Provider, name: Name): (r: (State, Ref))
    requires Ranked(rank, s.services) && Below(rank, p.deps, bound)
    ensures Ranked(rank, r.0.services)
    decreases bound, 0, |p.deps| + 1
  {
    var (s', args) := ResolvedAll(s, rank, bound, p.deps, name, 0);
    (s'.(heap := s'.heap + [Obj(p, args)], names := s'.names + [name]), Built(|s'.heap|))
  }

  ghost function ResolvedAll(
      s: State, rank: Rank, bound: nat, deps: seq<TypeId>, parent: Name, k: nat
  ): (r: (State, seq<Ref>))
    requires Ranked(rank, s.services) && Below(rank, deps, bound)
    ensures Ranked(rank, r.0.services) && |r.1| == |deps|
    decreases bound, 0, |deps|
  {
    if deps == [] then (s, [])
    else
      var (s1, first) := Resolved(s, rank, deps[0], parent, k);
      var (s2, rest) := ResolvedAll(s1, rank, bound, deps[1..], parent, k + 1);
      (s2, [first] + rest)
  }

  // ----- runs

  datatype Op =
    | Give(t: TypeId, instance: Ref)                        // AddSingleton(instance)
    | Single(t: TypeId, concrete: nat, deps: seq<TypeId>)   // AddSingleton<T, Concrete, Args...>()
    | Trans(t: TypeId, concrete: nat, deps: seq<TypeId>)    // AddTransient<T, Concrete, Args...>()
    | Ask(t: TypeId)                                        // Resolve<T>()

  predicate Registers(op: Op, t: TypeId) {
    !op.Ask? && op.t == t
  }

  function Dependencies(op: Op): seq<TypeId> {
    if op.Single? || op.Trans? then op.deps else []
  }

  /** An eager singleton is built at once and keeps no factory, so only the other factories
      need their dependencies ranked below. An instance handed to the container is null or
      an object of the client's own. */
  ghost predicate OpRanked(lazy: bool, rank: Rank, op: Op) {
    && (lazy || op.Trans? ==> Below(rank, Dependencies(op), rank(op.t)))
    && (op.Give? ==> !op.instance.Built?)
  }

  /** A rank above those of all the services listed. */
  ghost function Ceiling(rank: Rank, deps: seq<TypeId>): (bound: nat)
    ensures Below(rank, deps, bound)
  {
    if deps == [] then 0
    else
      var rest := Ceiling(rank, deps[1..]);
      assert forall d | d in deps :: d == deps[0] || d in deps[1..];
      if rest <= rank(deps[0]) then rank(deps[0]) + 1 else rest
  }

  ghost function Performed(lazy: bool, s: State, rank: Rank, op: Op, n: nat): (r: (State, Ref))
    requires Ranked(rank, s.services) && OpRanked(lazy, rank, op)
    ensures Ranked(rank, r.0.services)
  {
    match op
    case Give(t, instance) => (s.(services := s.services[t := Singleton(instance, None)]), Null)
    case Single(t, concrete, deps) =>
      var p := Provider(n, concrete, deps);
      if lazy then
        (s.(services := s.services[t := Singleton(Null, Some(p))]), Null)
      else
        var (s', r) := Constructed(s, rank, Ceiling(rank, deps), p, Name(Once(n), []));
        (s'.(services := s'.services[t := Singleton(r, None)]), Null)
    case Trans(t, concrete, deps) =>
      (s.(services := s.services[t := Transient(Provider(n, concrete, deps))]), Null)
    case Ask(t) => Resolved(s, rank, t, Name(Asked(n), []), 0)
  }

  ghost predicate OpsRanked(lazy: bool, rank: Rank, ops: seq<Op>) {
    forall i | 0 <= i < |ops| :: OpRanked(lazy, rank, ops[i])
  }

  /** The state after the first n operations and what each of them returned. */
  ghost function Run(lazy: bool, rank: Rank, ops: seq<Op>, n: nat): (r: (State, seq<Ref>))
    requires OpsRanked(lazy, rank, ops) && n <= |ops|
    ensures Ranked(rank, r.0.services) && |r.1| == n
  {
    if n == 0 then (EMPTY, [])
    else
      var (s, results) := Run(lazy, rank, ops, n - 1);
      var (s', r) := Performed(lazy, s, rank, ops[n - 1], n - 1);
      (s', results + [r])
  }

  // ----- the class

  class ServiceContainer {
    const lazy: bool
    var services: map<TypeId, Factory>
    var heap: seq<Obj>
    var operations: nat
    ghost var names: seq<Name>
    ghost const rank: Rank

    ghost predicate Valid()
      reads this
    {
      Ranked(rank, services)
    }

    ghost function Now(): State
      reads this
    {
      State(services, heap, names)
    }

    constructor (lazy: bool, ghost rank: Rank)
      ensures Valid() && Now() == EMPTY && this.lazy == lazy && this.rank == rank && operations == 0
    {
      this.lazy := lazy;
      this.rank := rank;
      services := map[];
      heap := [];
      names := [];
      operations := 0;
    }

    method Resolve(t: TypeId) returns (r: Ref)
      requires Valid()
      modifies this
      ensures Valid() && operations == old(operations) + 1
      ensures (Now(), r) == Performed(lazy, old(Now()), rank, Ask(t), old(operations))
    {
      operations := operations + 1;
      r := Find(t, Name(Asked(operations - 1), []), 0);
    }

    /** The factory's Resolve, for a client or for argument k of an object being built. */
    method Find(t: TypeId, ghost parent: Name, ghost k: nat) returns (r: Ref)
      requires Valid()
      modifies `services, `heap, `names
      ensures Valid()
      ensures (Now(), r) == Resolved(old(Now()), rank, t, parent, k)
      decreases rank(t), 1, 0
    {
      if t !in services {
        return Null;
      }
      var f := services[t];
      assert FactoryRanked(rank, t, f);
      match f {
        case Transient(p) =>
          r := Make(p, rank(t), Name(parent.root, parent.path + [Step(k, p.reg)]));
        case Singleton(instance, maker) =>
          r := instance;
          if instance == Null && maker.Some? {
            r := Make(maker.value, rank(t), Name(Once(maker.value.reg), []));
            services := services[t := Singleton(r, maker)];
            assert FactoryRanked(rank, t, services[t]);
          }
      }
    }

    method Make(p: Provider, ghost bound: nat, ghost name: Name) returns (r: Ref)
      requires Valid() && Below(rank, p.deps, bound)
      modifies `services, `heap, `names
      ensures Valid()
      ensures (Now(), r) == Constructed(old(Now()), rank, bound, p, name)
      decreases bound, 0, |p.deps| + 1
    {
      var args := FindAll(p.deps, bound, name, 0);
      r := Built(|heap|);
      heap := heap + [Obj(p, args)];
      names := names + [name];
    }

    method FindAll(deps: seq<TypeId>, ghost bound: nat, ghost parent: Name, ghost k: nat) returns (args: seq<Ref>)
      requires Valid() && Below(rank, deps, bound)
      modifies `services, `heap, `names
      ensures Valid()
      ensures (Now(), args) == ResolvedAll(old(Now()), rank, bound, deps, parent, k)
      decreases bound, 0, |deps|
    {
      if deps == [] {
        return [];
      }
      var first := Find(deps[0], parent, k);
      var rest := FindAll(deps[1..], bound, parent, k + 1);
      args := [first] + rest;
    }

    /** AddSingleton of an instance. */
    method AddInstance(t: TypeId, instance: Ref)
      requires Valid() && !instance.Built?
      modifies this
      ensures Valid() && operations == old(operations) + 1
      ensures Now() == Performed(lazy, old(Now()), rank, Give(t, instance), old(operations)).0
    {
      operations := operations + 1;
      services := services[t := Singleton(instance, None)];
    }

    method AddSingleton(t: TypeId, concrete: nat, deps: seq<TypeId>)
      requires Valid() && (lazy ==> Below(rank, deps, rank(t)))
      modifies this
      ensures Valid() && operations == old(operations) + 1
      ensures Now() == Performed(lazy, old(Now()), rank, Single(t, concrete, deps), old(operations)).0
    {
      var p := Provider(operations, concrete, deps);
      operations := operations + 1;
      if lazy {
        services := services[t := Singleton(Null, Some(p))];
      } else {
        var instance := Make(p, Ceiling(rank, deps), Name(Once(p.reg), []));
        services := services[t := Singleton(instance, None)];
      }
    }

    method AddTransient(t: TypeId, concrete: nat, deps: seq<TypeId>)
      requires Valid() && Below(rank, deps, rank(t))
      modifies this
      ensures Valid() && operations == old(operations) + 1
      ensures Now() == Performed(lazy, old(Now()), rank, Trans(t, concrete, deps), old(operations)).0
    {
      services := services[t := Transient(Provider(operations, concrete, deps))];
      operations := operations + 1;
    }

    /** One operation of a client's. */
    method Perform(op: Op) returns (r: Ref)
      requires Valid() && OpRanked(lazy, rank, op)
      modifies this
      ensures Valid() && operations == old(operations) + 1
      ensures (Now(), r) == Performed(lazy, old(Now()), rank, op, old(operations))
    {
      hide Resolved, Constructed, Ranked, Ceiling;
      r := Null;
      match op {
        case Give(t, instance) => AddInstance(t, instance);
        case Single(t, concrete, deps) => AddSingleton(t, concrete, deps);
        case Trans(t, concrete, deps) => AddTransient(t, concrete, deps);
        case Ask(t) => r := Resolve(t);
      }
    }

    /** A client's operations one after another, from a new container. */
    method Execute(ops: seq<Op>) returns (results: seq<Ref>)
      requires Valid() && Now() == EMPTY && operations == 0 && OpsRanked(lazy, rank, ops)
      modifies this
      ensures Valid() && (Now(), results) == Run(lazy, rank, ops, |ops|)
    {
      hide Performed, Ranked, OpRanked;
      results := [];
      for n := 0 to |ops|
        invariant Valid() && operations == n && (Now(), results) == Run(lazy, rank, ops, n)
      {
        var r := Perform(ops[n]);
        results := results + [r];
      }
    }
  }
}
