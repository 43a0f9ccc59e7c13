/** What the brokers advertise after an exposure, and repeating one: internal/app_kafka_exposure.go,
    lines 22-46, 182-192, 270-284 and 301-316. */
module KafkaAdvertise {
  import opened Text
  import opened Options
  import opened KafkaExposure
  import opened KafkaExposureRuns

  // ---------------------------------------------------------------- the environment list

  predicate NoVar(env: seq<EnvVar>, name: string) {
    forall i :: 0 <= i < |env| ==> env[i].name != name
  }

  lemma {:induction false} WithoutVarAppend(a: seq<EnvVar>, b: seq<EnvVar>, name: string)
    ensures WithoutVar(a + b, name) == WithoutVar(a, name) + WithoutVar(b, name)
  {
    if b == [] {
      assert a + b == a;
    } else {
      assert (a + b)[..|a + b| - 1] == a + b[..|b| - 1];
      WithoutVarAppend(a, b[..|b| - 1], name);
    }
  }

  lemma NoVarSnoc(env: seq<EnvVar>, last: EnvVar, name: string)
    ensures NoVar(env + [last], name) <==> NoVar(env, name) && last.name != name
  {
    var all := env + [last];
    assert all[|env|] == last;
    assert forall i :: 0 <= i < |env| ==> all[i] == env[i];
  }

  lemma {:induction false} WithoutVarNone(env: seq<EnvVar>, name: string, other: string)
    ensures NoVar(WithoutVar(env, name), name)
    ensures NoVar(env, other) ==> NoVar(WithoutVar(env, name), other)
    ensures NoVar(env, name) ==> WithoutVar(env, name) == env
  {
    if env != [] {
      var init, last := env[..|env| - 1], env[|env| - 1];
      WithoutVarNone(init, name, other);
      NoVarSnoc(init, last, name);
      NoVarSnoc(init, last, other);
      NoVarSnoc(WithoutVar(init, name), last, name);
      NoVarSnoc(WithoutVar(init, name), last, other);
      hide NoVar;
      assert env == init + [last];
    }
  }

  lemma WithoutVarSingle(v: EnvVar, name: string)
    ensures WithoutVar([v], name) == if v.name == name then [] else [v]
  {
    assert [v][..0] == [];
    assert WithoutVar([], name) == [];
  }

  /** Both variables merged: all old entries of either name are gone, and one of each is last. */
  lemma BothMerged(env: seq<EnvVar>, host: string, csv: string)
    ensures MergedEnv(MergedEnv(env, HOST_VAR, host), PORTS_VAR, csv)
         == WithoutVar(WithoutVar(env, HOST_VAR), PORTS_VAR) + [EnvVar(HOST_VAR, host), EnvVar(PORTS_VAR, csv)]
  {
    var h, p, left := EnvVar(HOST_VAR, host), EnvVar(PORTS_VAR, csv), WithoutVar(env, HOST_VAR);
    hide WithoutVar;
    WithoutVarAppend(left, [h], PORTS_VAR);
    WithoutVarSingle(h, PORTS_VAR);
    NamesDiffer();
    assert WithoutVar(left + [h], PORTS_VAR) == WithoutVar(left, PORTS_VAR) + [h];
    assert WithoutVar(left, PORTS_VAR) + [h] + [p] == WithoutVar(left, PORTS_VAR) + [h, p];
  }

  lemma NamesDiffer()
    ensures HOST_VAR != PORTS_VAR
  {
    assert HOST_VAR[15] != PORTS_VAR[15];
  }

  /** Merging the same two values again changes nothing. */
  lemma MergeTwice(env: seq<EnvVar>, host: string, csv: string)
    ensures var once := MergedEnv(MergedEnv(env, HOST_VAR, host), PORTS_VAR, csv);
            MergedEnv(MergedEnv(once, HOST_VAR, host), PORTS_VAR, csv) == once
  {
    var once := MergedEnv(MergedEnv(env, HOST_VAR, host), PORTS_VAR, csv);
    var h, p := EnvVar(HOST_VAR, host), EnvVar(PORTS_VAR, csv);
    var z := WithoutVar(WithoutVar(env, HOST_VAR), PORTS_VAR);
    BothMerged(env, host, csv);
    BothMerged(once, host, csv);
    WithoutVarNone(env, HOST_VAR, PORTS_VAR);
    WithoutVarNone(WithoutVar(env, HOST_VAR), PORTS_VAR, HOST_VAR);
    WithoutVarNone(z, HOST_VAR, PORTS_VAR);
    WithoutVarNone(z, PORTS_VAR, HOST_VAR);
    WithoutVarSingle(h, HOST_VAR);
    WithoutVarSingle(p, HOST_VAR);
    WithoutVarSingle(p, PORTS_VAR);
    WithoutVarAppend(z, [h, p], HOST_VAR);
    WithoutVarAppend([h], [p], HOST_VAR);
    assert [h] + [p] == [h, p];
    assert WithoutVar(once, HOST_VAR) == z + [p];
    WithoutVarAppend(z, [p], PORTS_VAR);
  }

  // ---------------------------------------------------------------- repeating an exposure

  ghost predicate AllWork(api: Api) {
    forall n :: api.fate(n).Works?
  }

  lemma UpsertQuiet(api: Api, w: World, name: string, p: int)
    requires AllWork(api) && InRange(p) && name in w.services && w.services[name].nodePorts == [p]
    ensures var (w', port) := Upsert(api, w, name, p); port == Some(p) && w'.services == w.services && w'.sts == w.sts
  {
    assert api.fate(w.calls).Works? && api.fate(w.calls + 1).Works?;
    assert w.services[name] == Service([p]);
  }

  lemma {:induction false} UpsertAllQuiet(api: Api, w: World, base: string, ports: seq<int>, n: nat)
    requires n <= |ports| && AllWork(api)
    requires forall i :: 0 <= i < n ==> BrokerPort(w, base, i, ports[i]) && InRange(ports[i])
    ensures var (w', done) := UpsertAll(api, w, base, ports, n);
            done == Some(ports[..n]) && w'.services == w.services && w'.sts == w.sts
  {
    hide Upsert, ServiceName;
    if n > 0 {
      UpsertAllQuiet(api, w, base, ports, n - 1);
      var w1 := UpsertAll(api, w, base, ports, n - 1).0;
      assert BrokerPort(w, base, n - 1, ports[n - 1]);
      UpsertQuiet(api, w1, ServiceName(base, n - 1), ports[n - 1]);
      assert ports[..n] == ports[..n - 1] + [ports[n - 1]];
    }
  }

  lemma {:induction false} DeleteRangeQuiet(w: World, base: string, from: nat, to: int)
    requires forall i: nat :: from <= i <= to ==> !HasBroker(w, base, i)
    ensures DeleteRange(w, base, from, to) == w
    decreases if from <= to then to - from + 1 else 0
  {
    if from <= to {
      assert !HasBroker(w, base, from);
      assert w.services - {ServiceName(base, from)} == w.services;
      DeleteRangeQuiet(w, base, from + 1, to);
    }
  }

  /** The instance as stored after a success, applied again on a cluster that works, succeeds and
      changes neither a Service, nor the StatefulSet, nor the instance. */
  lemma RepeatChangesNothing(w: World, ops: seq<Op>, api: Api, st: Instance, again: Api)
    requires Legal(ops) && Tidy(w, st.base) && Replicas(st) <= MAX_REPLICAS && Sane(api)
    requires Apply(api, AfterAll(w, ops), st).ok && AllWork(again)
    ensures var a := Apply(api, AfterAll(w, ops), st); var b := Apply(again, a.world, a.st);
            b.ok && b.st == a.st && b.world.services == a.world.services && b.world.sts == a.world.sts
  {
    ExposureIsExact(w, ops, api, st);
    var now := AfterAll(w, ops);
    RunKeepsTidy(w, ops, st.base);
    ApplyTidy(api, now, st);
    ServicesEffect(api, Ticked(now), st);
    var a := Apply(api, now, st);
    var n, w1 := Replicas(st), Ticked(a.world);
    hide AfterAll, ServiceName, UpsertAll, DeleteRange, MergedEnv, Csv;
    assert again.fate(a.world.calls).Works?;
    MergeTwice(now.sts.value.env, if IsNodePort(st) then HostFor(api, st) else "", if IsNodePort(st) then Csv(a.st.ports) else "");
    forall i: nat | Wanted(st) <= i ensures !HasBroker(w1, st.base, i) {
      assert !HasBroker(a.world, st.base, i);
    }
    if IsNodePort(st) {
      forall i | 0 <= i < n ensures BrokerPort(w1, st.base, i, a.st.ports[i]) && InRange(a.st.ports[i]) {
        assert BrokerPort(a.world, st.base, i, a.st.ports[i]);
        assert HasBroker(a.world, st.base, i);
      }
      UpsertAllQuiet(again, w1, st.base, a.st.ports, n);
      var w2 := UpsertAll(again, w1, st.base, a.st.ports, n).0;
      assert forall i: nat :: HasBroker(w2, st.base, i) <==> HasBroker(w1, st.base, i);
      DeleteRangeQuiet(w2, st.base, n, n + 8);
      assert again.fate(w2.calls).Works?;
    } else {
      DeleteRangeQuiet(w1, st.base, 0, n + 8);
      assert again.fate(w1.calls).Works?;
    }
  }

  // ---------------------------------------------------------------- what is accepted

  /** Every call works, and the cluster allocates ports of the NodePort range. */
  ghost predicate Allocates(api: Api) {
    forall n :: api.fate(n).Works? && 30000 <= api.fate(n).port
  }

  lemma UpsertWorks(api: Api, w: World, name: string, requested: int)
    requires Allocates(api)
    ensures Upsert(api, w, name, requested).1.Some? <==> requested == 0 || 30000 <= requested <= 32767
  {
    assert api.fate(w.calls).Works? && api.fate(w.calls + 1).Works?;
  }

  lemma {:induction false} UpsertAllWorks(api: Api, w: World, base: string, requested: seq<int>, n: nat)
    requires n <= |requested| && Allocates(api)
    ensures UpsertAll(api, w, base, requested, n).1.Some? <==>
            forall i :: 0 <= i < n ==> requested[i] == 0 || 30000 <= requested[i] <= 32767
  {
    hide Upsert, ServiceName;
    if n > 0 {
      UpsertAllWorks(api, w, base, requested, n - 1);
      UpsertWorks(api, UpsertAll(api, w, base, requested, n - 1).0, ServiceName(base, n - 1), requested[n - 1]);
    }
  }

  lemma ExposePortsWorks(api: Api, w: World, st: Instance)
    requires Allocates(api)
    ensures var n: nat := if st.replicas <= 0 then 3 else st.replicas;
            ExposePorts(api, w, st).ok <==>
              st.ports == [] || (|st.ports| == n && forall i :: 0 <= i < n ==> 30000 <= st.ports[i] <= 32767)
  {
    var n := Replicas(st);
    UpsertAllWorks(api, w, st.base, Zeros(n), n);
    hide UpsertAll, DeleteRange, Upsert;
    if |st.ports| == n {
      UpsertAllWorks(api, w, st.base, st.ports, n);
    }
  }

  /** On a cluster that works an exposure succeeds exactly if the broker container is there and, for a
      nodeport instance, there is a host and the ports are left open or are one for each broker, within
      the range. */
  lemma AcceptedExactly(api: Api, w: World, st: Instance)
    requires Allocates(api)
    ensures var n: nat := if st.replicas <= 0 then 3 else st.replicas;
            Apply(api, w, st).ok <==>
              && w.sts.Some? && w.sts.value.hasKafka
              && (Lower(Trim(st.exposure)) == "nodeport" ==>
                    && (Trim(st.host) != "" || api.inferredHost.Some?)
                    && (st.ports == [] || (|st.ports| == n && forall i :: 0 <= i < n ==> 30000 <= st.ports[i] <= 32767)))
  {
    assert api.fate(w.calls).Works?;
    var w1 := Ticked(w);
    ExposePortsWorks(api, w1, st);
    if api.inferredHost.Some? {
      ExposePortsWorks(api, w1, st.(host := api.inferredHost.value));
    }
    hide Trim, Lower, ExposePorts, DeleteRange;
    assert api.fate(Services(api, w1, st).world.calls).Works?;
  }

  /** Where failed calls take no effect, a failed exposure leaves the StatefulSet as it was. */
  lemma FailureKeepsSet(api: Api, w: World, st: Instance)
    requires forall n :: api.fate(n).Fails? ==> !api.fate(n).tookEffect
    ensures !Apply(api, w, st).ok ==> Apply(api, w, st).world.sts == w.sts
  {
    ServicesEffect(api, Ticked(w), st);
    hide Services;
  }

  // ---------------------------------------------------------------- what a broker advertises

  /** The value of the last variable of this name; unset is "". */
  function EnvValue(env: seq<EnvVar>, name: string): string {
    if env == [] then ""
    else if env[|env| - 1].name == name then env[|env| - 1].value
    else EnvValue(env[..|env| - 1], name)
  }

  /** The bootstrap script's EXTERNAL listener of the broker with this ordinal, if any. */
  function Advertised(env: seq<EnvVar>, ordinal: nat): Option<string> {
    var ports, host := EnvValue(env, PORTS_VAR), EnvValue(env, HOST_VAR);
    if ports == "" || host == "" then None
    else
      var fields := Split(ports, ',');
      if ordinal < |fields| && fields[ordinal] != "" then Some(host + ":" + fields[ordinal]) else None
  }

  lemma ItoaFree(n: int)
    ensures Free(Itoa(n), ',') && Itoa(n) != ""
  {
    var d := Digits(if n < 0 then -n else n);
    assert AllDigits(d) && d != "";
  }

  /** Splitting the port list gives the ports back, in order. */
  lemma CsvFields(ports: seq<int>)
    requires ports != []
    ensures Csv(ports) != "" && |Split(Csv(ports), ',')| == |ports|
    ensures forall i :: 0 <= i < |ports| ==> Split(Csv(ports), ',')[i] == Itoa(ports[i])
  {
    var parts := seq(|ports|, i requires 0 <= i < |ports| => Itoa(ports[i]));
    forall i | 0 <= i < |ports| ensures Free(parts[i], ',') && parts[i] != "" {
      ItoaFree(ports[i]);
    }
    SplitJoin(parts, ',');
  }

  /** After a successful exposure, broker i of a nodeport instance advertises the host with the
      NodePort of its own Service, later ordinals advertise nothing, and neither does any broker
      of an internal instance. */
  lemma {:induction false} BrokersAdvertiseOwnPort(w: World, ops: seq<Op>, api: Api, st: Instance, i: nat)
    requires Legal(ops) && Tidy(w, st.base) && Replicas(st) <= MAX_REPLICAS && Sane(api)
    requires Apply(api, AfterAll(w, ops), st).ok
    ensures var a := Apply(api, AfterAll(w, ops), st);
            && a.world.sts.Some?
            && var ad := Advertised(a.world.sts.value.env, i);
            (if i < Wanted(st)
             then HasBroker(a.world, st.base, i) && a.world.services[ServiceName(st.base, i)].nodePorts != []
                  && ad == Some(HostFor(api, st) + ":" + Itoa(a.world.services[ServiceName(st.base, i)].nodePorts[0]))
             else ad == None)
  {
    ExposureIsExact(w, ops, api, st);
    ServicesEffect(api, Ticked(AfterAll(w, ops)), st);
    var a := Apply(api, AfterAll(w, ops), st);
    var sts := AfterAll(w, ops).sts.value;
    var host, csv := if IsNodePort(st) then HostFor(api, st) else "", if IsNodePort(st) then Csv(a.st.ports) else "";
    hide AfterAll, ServiceName, Services, Csv, HostFor, MergedEnv, EnvValue;
    assert a.world.sts == Some(PatchedSet(sts, host, csv));
    MergedValues(sts.env, host, csv);
    if IsNodePort(st) {
      CsvFields(a.st.ports);
      assert host != "" by { HostNonEmpty(api, st); }
      if i < Replicas(st) {
        assert BrokerPort(a.world, st.base, i, a.st.ports[i]);
        ItoaFree(a.st.ports[i]);
      }
    }
  }

  lemma MergedValues(env: seq<EnvVar>, host: string, csv: string)
    ensures var once := MergedEnv(MergedEnv(env, HOST_VAR, host), PORTS_VAR, csv);
            EnvValue(once, PORTS_VAR) == csv && EnvValue(once, HOST_VAR) == host
  {
    BothMerged(env, host, csv);
    NamesDiffer();
    hide WithoutVar, MergedEnv;
    var z := WithoutVar(WithoutVar(env, HOST_VAR), PORTS_VAR);
    var once := z + [EnvVar(HOST_VAR, host), EnvVar(PORTS_VAR, csv)];
    assert once[..|once| - 1] == z + [EnvVar(HOST_VAR, host)];
  }

  /** After a success the container's environment ends with the two variables: host and port list of a
      nodeport instance, blank for an internal one; and the listener port is open. */
  lemma VariablesSet(api: Api, w: World, st: Instance)
    requires Apply(api, w, st).ok
    ensures var a := Apply(api, w, st); var nodeport := Lower(Trim(st.exposure)) == "nodeport";
            && a.world.sts.Some? && a.world.sts.value.externalPort && |a.world.sts.value.env| >= 2
            && var env := a.world.sts.value.env;
            env[|env| - 2..] == [
              EnvVar("KAFKA_EXTERNAL_ADVERTISE_HOST",
                     if !nodeport then "" else if Trim(st.host) != "" then Trim(st.host) else api.inferredHost.value),
              EnvVar("KAFKA_EXTERNAL_NODE_PORTS", if nodeport then Csv(a.st.ports) else "")]
  {
    PortsAsked(api, w, st);
    var nodeport := Lower(Trim(st.exposure)) == "nodeport";
    var a := Apply(api, w, st);
    hide Services, Csv, Trim, Lower, MergedEnv;
    BothMerged(w.sts.value.env, if nodeport then HostFor(api, st) else "", if nodeport then Csv(a.st.ports) else "");
  }

  lemma HostNonEmpty(api: Api, st: Instance)
    requires Sane(api) && (Trim(st.host) != "" || api.inferredHost.Some?)
    ensures HostFor(api, st) != ""
  {
  }

  // ---------------------------------------------------------------- the bootstrap list

  function BootstrapParts(host: string, ports: seq<int>): seq<string> {
    seq(|ports|, i requires 0 <= i < |ports| => host + ":" + Itoa(ports[i]))
  }

  lemma {:induction false} JoinSnoc(parts: seq<string>, last: string, c: char)
    ensures Join(parts + [last], c) == if parts == [] then last else Join(parts, c) + [c] + last
  {
    if |parts| == 1 {
      assert (parts + [last])[1..] == [last];
    } else if |parts| > 1 {
      assert (parts + [last])[1..] == parts[1..] + [last];
      JoinSnoc(parts[1..], last, c);
    }
  }

  lemma BootstrapStep(host: string, ports: seq<int>, i: nat)
    requires i < |ports|
    ensures Join(BootstrapParts(host, ports[..i + 1]), ',')
         == (if i > 0 then Join(BootstrapParts(host, ports[..i]), ',') + "," else "") + (host + ":" + Itoa(ports[i]))
  {
    var parts, last := BootstrapParts(host, ports[..i]), host + ":" + Itoa(ports[i]);
    assert BootstrapParts(host, ports[..i + 1]) == parts + [last];
    JoinSnoc(parts, last, ',');
    assert "" + last == last;
  }

  /** KafkaExternalBootstrapCSV: the clients' list names the brokers in ordinal order. */
  method ExternalBootstrapCsv(host0: string, ports: seq<int>) returns (csv: string)
    ensures csv == if Trim(host0) == "" then "" else Join(BootstrapParts(Trim(host0), ports), ',')
  {
    var host := Trim(host0);
    assert BootstrapParts(host, ports[..0]) == [];
    assert Join([], ',') == "";
    assert ports[..|ports|] == ports;
    hide Trim, Itoa, Join, BootstrapParts;
    if host == "" {
      return "";
    }
    if |ports| == 0 {
      assert ports[..0] == ports;
      return "";
    }
    csv := "";
    for i := 0 to |ports|
      invariant csv == Join(BootstrapParts(host, ports[..i]), ',')
    {
      BootstrapStep(host, ports, i);
      if i > 0 {
        csv := csv + ",";
      }
      csv := csv + (host + ":" + Itoa(ports[i]));
    }
  }
}
