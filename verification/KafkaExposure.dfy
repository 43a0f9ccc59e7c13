/** Exposing a Kafka instance through one NodePort Service per broker:
    internal/app_kafka_exposure.go, and the Service part of internal/app_kafka_k8s_delete.go. */
module KafkaExposure {
  import opened Text
  import opened Options

  // ---------------------------------------------------------------- names

  /** The Service of broker i of the instance with this (trimmed) base name. */
  function ServiceName(base: string, i: nat): string {
    base + "-kafka-np-" + Digits(i)
  }

  lemma DigitSuffixUnique(a: string, c: string, b: string, d: string)
    requires a != "" && !('0' <= a[|a| - 1] <= '9') && AllDigits(c)
    requires b != "" && !('0' <= b[|b| - 1] <= '9') && AllDigits(d)
    requires a + c == b + d
    ensures a == b && c == d
  {
    var s := a + c;
    assert s[..|a|] == a && s[..|b|] == b && s[|a|..] == c && s[|b|..] == d;
  }

  /** Distinct brokers, of the same or of different instances, have distinct Services. */
  lemma ServiceNameInjective(base: string, i: nat, other: string, j: nat)
    requires ServiceName(base, i) == ServiceName(other, j)
    ensures base == other && i == j
  {
    var mid := "-kafka-np-";
    var a, b := base + mid, other + mid;
    DigitSuffixUnique(a, Digits(i), b, Digits(j));
    DigitsInjective(i, j);
    assert a[..|base|] == base && b[..|other|] == other;
  }

  // ---------------------------------------------------------------- the cluster

  /** A Service, by the NodePorts of its ports. */
  datatype Service = Service(nodePorts: seq<int>)

  datatype EnvVar = EnvVar(name: string, value: string)

  /** The Kafka StatefulSet: whether it has the kafka container, and that container's environment
      and external port. */
  datatype StatefulSet = StatefulSet(hasKafka: bool, env: seq<EnvVar>, externalPort: bool)

  /** What becomes of an API call: it works, with the NodePort the cluster would allocate, or it
      reports an error after taking effect or not. */
  datatype Fate = Works(port: int) | Fails(tookEffect: bool, port: int)

  /** The API server: the fate of the n-th call, and the address inferred from the nodes. */
  datatype Api = Api(fate: nat -> Fate, inferredHost: Option<string>)

  datatype World = World(services: map<string, Service>, sts: Option<StatefulSet>, calls: nat)

  const MIN_NODE_PORT := 30000
  const MAX_NODE_PORT := 32767
  const LISTENER_PORT := 9094

  predicate InRange(p: int) {
    MIN_NODE_PORT <= p <= MAX_NODE_PORT
  }

  function Ticked(w: World): World {
    w.(calls := w.calls + 1)
  }

  /** Creating or updating the Service name with one port; requested 0 leaves the choice to the
      cluster. */
  function Written(w: World, name: string, requested: int, fate: Fate): World {
    Ticked(w).(services := w.services[name := Service([if requested != 0 then requested else fate.port])])
  }

  /** The world after the call, and the NodePort the Service has, or None for an error. */
  function Upsert(api: Api, w: World, name: string, requested: int): (World, Option<int>) {
    if requested != 0 && !InRange(requested) then (w, None)
    else if api.fate(w.calls).Fails? then (Ticked(w), None)
    else
      var w1 := Ticked(w);
      if name in w.services && requested == 0 && w.services[name].nodePorts != []
         && w.services[name].nodePorts[0] >= MIN_NODE_PORT then (w1, Some(w.services[name].nodePorts[0]))
      else
        var fate := api.fate(w1.calls);
        var w2 := Written(w1, name, requested, fate);
        if fate.Fails? then (if fate.tookEffect then w2 else Ticked(w1), None)
        else
          var port := w2.services[name].nodePorts[0];
          if name !in w.services && port < MIN_NODE_PORT then (w2, None) else (w2, Some(port))
  }

  /** Upserts for the brokers 0..n-1 in order, up to the first error. */
  function UpsertAll(api: Api, w: World, base: string, requested: seq<int>, n: nat): (r: (World, Option<seq<int>>))
    requires n <= |requested|
    ensures r.1.Some? ==> |r.1.value| == n
  {
    if n == 0 then (w, Some([])) else
      var (w1, done) := UpsertAll(api, w, base, requested, n - 1);
      if done.None? then (w1, None) else
        var (w2, port) := Upsert(api, w1, ServiceName(base, n - 1), requested[n - 1]);
        if port.None? then (w2, None) else (w2, Some(done.value + [port.value]))
  }

  /** The Services of brokers from..to are gone; deleting succeeds, or finds nothing. */
  function DeleteRange(w: World, base: string, from: nat, to: int): World
    decreases if from <= to then to - from + 1 else 0
  {
    if from > to then w
    else DeleteRange(w.(services := w.services - {ServiceName(base, from)}), base, from + 1, to)
  }

  function AtLeastZero(n: int): nat {
    if n < 0 then 0 else n
  }

  /** kafkaMergeEnvVar: every entry of that name goes, and one is added at the end. */
  function WithoutVar(env: seq<EnvVar>, name: string): seq<EnvVar> {
    if env == [] then [] else
      var rest := WithoutVar(env[..|env| - 1], name);
      if env[|env| - 1].name == name then rest else rest + [env[|env| - 1]]
  }

  function MergedEnv(env: seq<EnvVar>, name: string, value: string): seq<EnvVar> {
    WithoutVar(env, name) + [EnvVar(name, value)]
  }

  // ---------------------------------------------------------------- applying an exposure

  datatype Instance = Instance(base: string, exposure: string, host: string, replicas: int, ports: seq<int>)

  function Replicas(st: Instance): (n: nat)
    ensures n >= 1
  {
    if st.replicas <= 0 then 3 else st.replicas
  }

  predicate IsNodePort(st: Instance) {
    Lower(Trim(st.exposure)) == "nodeport"
  }

  const HOST_VAR := "KAFKA_EXTERNAL_ADVERTISE_HOST"
  const PORTS_VAR := "KAFKA_EXTERNAL_NODE_PORTS"

  function Csv(ports: seq<int>): string {
    Join(seq(|ports|, i requires 0 <= i < |ports| => Itoa(ports[i])), ',')
  }

  function Zeros(n: nat): (r: seq<int>)
    ensures |r| == n && forall i :: 0 <= i < n ==> r[i] == 0
  {
    seq(n, _ => 0)
  }

  function PatchedSet(s: StatefulSet, host: string, csv: string): StatefulSet {
    StatefulSet(s.hasKafka, MergedEnv(MergedEnv(s.env, HOST_VAR, host), PORTS_VAR, csv), true)
  }

  datatype Applied = Applied(world: World, st: Instance, ok: bool)

  /** The Services part in nodeport mode, for an instance with a host. */
  function ExposePorts(api: Api, w: World, st: Instance): Applied {
    var n := Replicas(st);
    if |st.ports| == n then
      if exists i :: 0 <= i < n && !InRange(st.ports[i]) then Applied(w, st, false)
      else
        var (w1, done) := UpsertAll(api, w, st.base, st.ports, n);
        if done.None? then Applied(w1, st, false)
        else Applied(DeleteRange(w1, st.base, n, n + 8), st, true)
    else if |st.ports| == 0 then
      var (w1, done) := UpsertAll(api, w, st.base, Zeros(n), n);
      if done.None? then Applied(w1, st, false)
      else Applied(DeleteRange(w1, st.base, n, n + 8), st.(ports := done.value), true)
    else Applied(w, st, false)
  }

  function Services(api: Api, w: World, st: Instance): Applied {
    if !IsNodePort(st) then Applied(DeleteRange(w, st.base, 0, Replicas(st) + 8), st, true)
    else if Trim(st.host) != "" then ExposePorts(api, w, st)
    else if api.inferredHost.None? then Applied(w, st, false)
    else ExposePorts(api, w, st.(host := api.inferredHost.value))
  }

  /** The advertised host: the instance's own, or the inferred one. */
  function HostFor(api: Api, st: Instance): string {
    if Trim(st.host) != "" then Trim(st.host)
    else if api.inferredHost.Some? then api.inferredHost.value else ""
  }

  /** ApplyKafkaInstanceExposure: the world, the instance as changed in memory, and success. */
  function Apply(api: Api, w: World, st: Instance): Applied {
    var w1 := Ticked(w);
    if api.fate(w.calls).Fails? || w.sts.None? || !w.sts.value.hasKafka then Applied(w1, st, false)
    else
      var a := Services(api, w1, st);
      if !a.ok then a
      else
        var patched := if IsNodePort(st) then PatchedSet(w.sts.value, HostFor(api, st), Csv(a.st.ports))
                       else PatchedSet(w.sts.value, "", "");
        var w3 := Ticked(a.world).(sts := Some(patched));
        match api.fate(a.world.calls)
        case Works(_) => Applied(w3, a.st, true)
        case Fails(effect, _) => Applied(if effect then w3 else Ticked(a.world), a.st, false)
  }

  /** The Services of brokers from to i - 1 are gone, and no others. */
  ghost predicate Gone(before: World, after: World, base: string, from: int, i: int) {
    && (forall name :: name in after.services <==>
          name in before.services && !exists k: nat :: from <= k < i && name == ServiceName(base, k))
    && forall name :: name in after.services ==> after.services[name] == before.services[name]
  }

  lemma RemoveOne(before: World, now: World, base: string, from: int, i: nat)
    requires from <= i && Gone(before, now, base, from, i)
    ensures Gone(before, now.(services := now.services - {ServiceName(base, i)}), base, from, i + 1)
  {
    hide ServiceName;
  }

  // ---------------------------------------------------------------- the code

  /** The connection to the cluster. */
  class Cluster {
    const api: Api
    var world: World

    constructor (api: Api, world: World)
      ensures this.api == api && this.world == world
    {
      this.api, this.world := api, world;
    }

    method UpsertNodePortService(base: string, ordinal: nat, requested: int) returns (port: Option<int>)
      modifies this`world
      ensures (world, port) == Upsert(api, old(world), ServiceName(base, ordinal), requested)
      ensures requested != 0 && !(30000 <= requested <= 32767) ==> port.None? && world == old(world)
      ensures port.Some? ==>
                var name := ServiceName(base, ordinal); var before := old(world).services;
                && name in world.services && world.services[name].nodePorts != []
                && world.services[name].nodePorts[0] == port.value
                && (requested != 0 ==> world.services[name].nodePorts == [requested])
                && (requested == 0 && name in before && before[name].nodePorts != [] && before[name].nodePorts[0] >= 30000 ==>
                      world.services == before)
                && (name !in before ==> port.value >= 30000)
      ensures forall other :: other != ServiceName(base, ordinal) ==>
                && (other in world.services <==> other in old(world).services)
                && (other in world.services ==> world.services[other] == old(world).services[other])
      ensures world.sts == old(world).sts
    {
      if requested != 0 && (requested < MIN_NODE_PORT || requested > MAX_NODE_PORT) {
        return None;
      }
      var name := ServiceName(base, ordinal);
      var get := api.fate(world.calls);
      world := Ticked(world);
      if get.Fails? {
        return None;
      }
      var found := name in world.services;
      if found && requested == 0 && |world.services[name].nodePorts| > 0 {
        var np := world.services[name].nodePorts[0];
        if np >= MIN_NODE_PORT {
          return Some(np);
        }
      }
      var fate := api.fate(world.calls);
      var written := Written(world, name, requested, fate);
      if fate.Fails? {
        world := if fate.tookEffect then written else Ticked(world);
        return None;
      }
      world := written;
      var given := world.services[name].nodePorts[0];
      if !found && given < MIN_NODE_PORT {
        return None;
      }
      port := Some(given);
    }

    method DeleteNodePortServicesRange(base: string, from: int, to: int)
      modifies this`world
      ensures world == DeleteRange(old(world), base, AtLeastZero(from), to)
      ensures forall name :: name in world.services <==>
                name in old(world).services && !exists i: nat :: from <= i <= to && name == ServiceName(base, i)
      ensures forall name :: name in world.services ==> world.services[name] == old(world).services[name]
    {
      hide ServiceName;
      var i: nat := if from < 0 then 0 else from;
      while i <= to
        invariant i >= from && DeleteRange(world, base, i, to) == DeleteRange(old(world), base, AtLeastZero(from), to)
        invariant i <= to + 1 || i == AtLeastZero(from)
        invariant Gone(old(world), world, base, from, i)
      {
        RemoveOne(old(world), world, base, from, i);
        world := world.(services := world.services - {ServiceName(base, i)});
        i := i + 1;
      }
    }

    method UpsertEach(base: string, requested: seq<int>) returns (given: Option<seq<int>>)
      modifies this`world
      ensures (world, given) == UpsertAll(api, old(world), base, requested, |requested|)
    {
      hide Upsert;
      var alloc: seq<int> := [];
      for i := 0 to |requested|
        invariant UpsertAll(api, old(world), base, requested, i) == (world, Some(alloc))
      {
        UpsertErrorStays(api, old(world), base, requested, i + 1);
        var port := UpsertNodePortService(base, i, requested[i]);
        if port.None? {
          return None;
        }
        alloc := alloc + [port.value];
      }
      given := Some(alloc);
    }

    method ApplyExposure(st0: Instance) returns (st: Instance, ok: bool)
      modifies this`world
      ensures Apply(api, old(world), st0) == Applied(world, st, ok)
    {
      hide UpsertAll, DeleteRange, Csv, MergedEnv;
      st, ok := st0, false;
      var n := Replicas(st);
      var get := api.fate(world.calls);
      world := Ticked(world);
      if get.Fails? || world.sts.None? || !world.sts.value.hasKafka {
        return;
      }
      var sts := world.sts.value;
      var host, csv := "", "";
      if IsNodePort(st) {
        host := Trim(st.host);
        if host == "" {
          if api.inferredHost.None? {
            return;
          }
          host := api.inferredHost.value;
          st := st.(host := host);
        }
        if |st.ports| == n {
          if exists i :: 0 <= i < n && !InRange(st.ports[i]) {
            return;
          }
          var done := UpsertEach(st.base, st.ports);
          if done.None? {
            return;
          }
        } else if |st.ports| == 0 {
          var alloc := UpsertEach(st.base, Zeros(n));
          if alloc.None? {
            return;
          }
          st := st.(ports := alloc.value);
        } else {
          return;
        }
        csv := Csv(st.ports);
        DeleteNodePortServicesRange(st.base, n, n + 8);
      } else {
        DeleteNodePortServicesRange(st.base, 0, n + 8);
      }
      var env := MergeEnvVar(sts.env, HOST_VAR, host);
      env := MergeEnvVar(env, PORTS_VAR, csv);
      var patched := StatefulSet(sts.hasKafka, env, true);
      var update := api.fate(world.calls);
      var taken := Ticked(world).(sts := Some(patched));
      match update {
        case Works(_) =>
          world := taken;
          ok := true;
        case Fails(effect, _) =>
          world := if effect then taken else Ticked(world);
      }
    }
  }

  lemma {:induction false} UpsertErrorStays(api: Api, w: World, base: string, requested: seq<int>, n: nat)
    requires n <= |requested|
    ensures UpsertAll(api, w, base, requested, n).1.None? ==>
              UpsertAll(api, w, base, requested, |requested|) == UpsertAll(api, w, base, requested, n)
    decreases |requested| - n
  {
    hide Upsert;
    if n < |requested| && UpsertAll(api, w, base, requested, n).1.None? {
      UpsertErrorStays(api, w, base, requested, n + 1);
    }
  }

  method MergeEnvVar(env: seq<EnvVar>, name: string, value: string) returns (out: seq<EnvVar>)
    ensures out == MergedEnv(env, name, value)
  {
    out := [];
    for i := 0 to |env|
      invariant out == WithoutVar(env[..i], name)
    {
      assert env[..i + 1][..i] == env[..i];
      if env[i].name == name {
        continue;
      }
      out := out + [env[i]];
    }
    assert env[..|env|] == env;
    out := out + [EnvVar(name, value)];
  }
}
