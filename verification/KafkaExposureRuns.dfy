/** What a run of exposure changes keeps: internal/app_kafka_exposure.go, lines 67-140 and 195-299,
    internal/app_kafka_k8s_delete.go, line 47, internal/app_kafka_template.go, lines 58-63. */
module KafkaExposureRuns {
  import opened Text
  import opened KafkaExposure

  const MAX_REPLICAS := 9

  predicate HasBroker(w: World, base: string, i: nat) {
    ServiceName(base, i) in w.services
  }

  /** The Service of broker i has the single NodePort p. */
  predicate BrokerPort(w: World, base: string, i: nat, p: int) {
    HasBroker(w, base, i) && w.services[ServiceName(base, i)].nodePorts == [p]
  }

  ghost predicate IsBrokerName(base: string, name: string) {
    exists i: nat :: name == ServiceName(base, i)
  }

  /** Every name other than those of this instance's brokers is as it was. */
  ghost predicate SameElsewhere(w: World, w': World, base: string) {
    forall name :: !IsBrokerName(base, name) ==> SameAt(w, w', name)
  }

  predicate SameAt(w: World, w': World, name: string) {
    (name in w.services <==> name in w'.services) && (name in w.services ==> w'.services[name] == w.services[name])
  }

  // ---------------------------------------------------------------- deleting a range

  lemma {:induction false} DeleteRangeEffect(w: World, base: string, from: nat, to: int)
    ensures var w' := DeleteRange(w, base, from, to);
            && w'.sts == w.sts && w'.calls == w.calls
            && (forall i: nat :: from <= i <= to ==> !HasBroker(w', base, i))
            && (forall i: nat :: !(from <= i <= to) ==> SameAt(w, w', ServiceName(base, i)))
            && SameElsewhere(w, w', base)
    decreases if from <= to then to - from + 1 else 0
  {
    if from <= to {
      var w1 := w.(services := w.services - {ServiceName(base, from)});
      DeleteRangeEffect(w1, base, from + 1, to);
      var w' := DeleteRange(w, base, from, to);
      assert SameAt(w1, w', ServiceName(base, from));
      forall i: nat | !(from <= i <= to) ensures SameAt(w, w', ServiceName(base, i)) {
        if ServiceName(base, i) == ServiceName(base, from) {
          ServiceNameInjective(base, i, base, from);
        }
        assert SameAt(w1, w', ServiceName(base, i));
      }
    }
  }

  // ---------------------------------------------------------------- upserts

  lemma UpsertEffect(api: Api, w: World, name: string, requested: int)
    ensures var (w', port) := Upsert(api, w, name, requested);
            && w'.sts == w.sts
            && (forall n :: n != name ==> SameAt(w, w', n))
            && (name in w.services ==> name in w'.services)
            && (port.Some? ==> name in w'.services && w'.services[name].nodePorts != []
                               && w'.services[name].nodePorts[0] == port.value
                               && (requested != 0 ==> w'.services[name].nodePorts == [requested]))
            && (name in w'.services ==>
                  (name in w.services && w'.services[name] == w.services[name]) || |w'.services[name].nodePorts| == 1)
  {
  }

  /** The Service of broker i has NodePort p, as the first of its ports. */
  predicate BrokerFirst(w: World, base: string, i: nat, p: int) {
    && HasBroker(w, base, i) && w.services[ServiceName(base, i)].nodePorts != []
    && w.services[ServiceName(base, i)].nodePorts[0] == p
  }

  lemma {:induction false} UpsertAllEffect(api: Api, w: World, base: string, requested: seq<int>, n: nat)
    requires n <= |requested|
    ensures var (w', done) := UpsertAll(api, w, base, requested, n);
            && w'.sts == w.sts && SameElsewhere(w, w', base)
            && (forall i: nat :: i >= n ==> SameAt(w, w', ServiceName(base, i)))
            && (forall i: nat :: HasBroker(w, base, i) ==> HasBroker(w', base, i))
            && (done.Some? ==> forall i :: 0 <= i < n ==>
                  BrokerFirst(w', base, i, done.value[i]) && (requested[i] != 0 ==> done.value[i] == requested[i]))
  {
    hide Upsert, ServiceName;
    if n > 0 {
      UpsertAllEffect(api, w, base, requested, n - 1);
      var (w1, done) := UpsertAll(api, w, base, requested, n - 1);
      if done.Some? {
        var name := ServiceName(base, n - 1);
        UpsertEffect(api, w1, name, requested[n - 1]);
        var (w2, port) := Upsert(api, w1, name, requested[n - 1]);
        var (w', all) := UpsertAll(api, w, base, requested, n);
        forall i: nat | i != n - 1 ensures SameAt(w1, w', ServiceName(base, i)) {
          if ServiceName(base, i) == name {
            ServiceNameInjective(base, i, base, n - 1);
          }
        }
        assert IsBrokerName(base, name);
        forall other | !IsBrokerName(base, other) ensures SameAt(w, w', other) {
          assert SameAt(w, w1, other) && SameAt(w1, w', other);
        }
        forall i: nat | HasBroker(w, base, i) ensures HasBroker(w', base, i) {
          if i != n - 1 {
            assert SameAt(w1, w', ServiceName(base, i));
          }
        }
        if all.Some? {
          forall i | 0 <= i < n
            ensures BrokerFirst(w', base, i, all.value[i]) && (requested[i] != 0 ==> all.value[i] == requested[i])
          {
            if i < n - 1 {
              assert BrokerFirst(w1, base, i, done.value[i]);
              assert SameAt(w1, w', ServiceName(base, i));
            }
          }
        }
      }
    }
  }

  // ---------------------------------------------------------------- one exposure change

  /** No broker Service has an ordinal of m or more. */
  ghost predicate OnlyBelow(w: World, base: string, m: nat) {
    forall i: nat :: HasBroker(w, base, i) ==> i < m
  }

  /** The brokers that should have a Service. */
  function Wanted(st: Instance): nat {
    if IsNodePort(st) then Replicas(st) else 0
  }

  /** Exactly the brokers 0..n-1 have a Service. */
  ghost predicate Exactly(w: World, base: string, n: nat) {
    forall i: nat :: HasBroker(w, base, i) <==> i < n
  }

  lemma PortsEffect(api: Api, w: World, base: string, requested: seq<int>, n: nat)
    requires |requested| == n
    ensures var (w1, done) := UpsertAll(api, w, base, requested, n); var w2 := DeleteRange(w1, base, n, n + 8);
            && w1.sts == w2.sts == w.sts && SameElsewhere(w, w1, base) && SameElsewhere(w, w2, base)
            && (forall i: nat :: i >= n + 9 ==> SameAt(w, w1, ServiceName(base, i)) && SameAt(w, w2, ServiceName(base, i)))
            && (done.Some? && (forall i :: 0 <= i < n ==> requested[i] != 0) ==> done.value == requested)
            && (done.Some? ==>
                  && |done.value| == n && (forall i :: 0 <= i < n ==> BrokerFirst(w2, base, i, done.value[i]))
                  && forall i: nat :: i <= n + 8 ==> (HasBroker(w2, base, i) <==> i < n))
  {
    hide ServiceName, UpsertAll, DeleteRange;
    UpsertAllEffect(api, w, base, requested, n);
    var (w1, done) := UpsertAll(api, w, base, requested, n);
    DeleteRangeEffect(w1, base, n, n + 8);
    var w2 := DeleteRange(w1, base, n, n + 8);
    forall i: nat | i >= n + 9 ensures SameAt(w, w2, ServiceName(base, i)) {
      assert SameAt(w, w1, ServiceName(base, i)) && SameAt(w1, w2, ServiceName(base, i));
    }
    forall name | !IsBrokerName(base, name) ensures SameAt(w, w2, name) {
      assert SameAt(w, w1, name) && SameAt(w1, w2, name);
    }
    if done.Some? {
      forall i: nat | i < n ensures BrokerFirst(w2, base, i, done.value[i]) {
        assert SameAt(w1, w2, ServiceName(base, i));
      }
      forall i: nat | i <= n + 8 ensures HasBroker(w2, base, i) <==> i < n {
        if i < n {
          assert BrokerFirst(w2, base, i, done.value[i]);
        }
      }
    }
  }

  lemma ServicesEffect(api: Api, w: World, st: Instance)
    ensures var a := Services(api, w, st); var n := Replicas(st);
            && a.world.sts == w.sts && SameElsewhere(w, a.world, st.base)
            && a.st.base == st.base && Replicas(a.st) == n && a.st.exposure == st.exposure
            && (forall i: nat :: i >= n + 9 ==> SameAt(w, a.world, ServiceName(st.base, i)))
            && (a.ok ==> forall i: nat :: i <= n + 8 ==> (HasBroker(a.world, st.base, i) <==> i < Wanted(st)))
            && (a.ok && IsNodePort(st) ==>
                  && |a.st.ports| == n && a.st.host == (if Trim(st.host) != "" then st.host else HostFor(api, st))
                  && forall i :: 0 <= i < n ==> BrokerFirst(a.world, st.base, i, a.st.ports[i]))
  {
    hide ServiceName, UpsertAll, DeleteRange;
    var n := Replicas(st);
    if IsNodePort(st) {
      hide Trim, IsBrokerName, HasBroker, BrokerFirst, SameAt, SameElsewhere;
      PortsEffect(api, w, st.base, if |st.ports| == n then st.ports else Zeros(n), n);
    } else {
      DeleteRangeEffect(w, st.base, 0, n + 8);
    }
  }

  /** Applying an exposure: whatever happens, only this instance's Services below ordinal
      replicas + 9 are touched. After a success the brokers with a Service are exactly the wanted
      ones if and only if none had an ordinal of replicas + 9 or more before; and in nodeport mode
      the instance's ports are those of its Services, in order. */
  lemma ApplyEffect(api: Api, w: World, st: Instance)
    ensures var a := Apply(api, w, st); var n := Replicas(st);
            && SameElsewhere(w, a.world, st.base)
            && (forall i: nat :: i >= n + 9 ==> SameAt(w, a.world, ServiceName(st.base, i)))
            && (a.ok ==> (Exactly(a.world, st.base, Wanted(st)) <==> OnlyBelow(w, st.base, n + 9)))
            && (a.ok && IsNodePort(st) ==>
                  |a.st.ports| == n && forall i :: 0 <= i < n ==> BrokerFirst(a.world, st.base, i, a.st.ports[i]))
  {
    ServicesEffect(api, Ticked(w), st);
    hide ServiceName, Services, PatchedSet, Csv;
    var a, n := Apply(api, w, st), Replicas(st);
    forall name | SameAt(Ticked(w), a.world, name) ensures SameAt(w, a.world, name) { }
    assert SameElsewhere(w, a.world, st.base);
    if a.ok {
      forall i: nat | i >= n + 9 ensures HasBroker(a.world, st.base, i) <==> HasBroker(w, st.base, i) {
        assert SameAt(w, a.world, ServiceName(st.base, i));
      }
      if OnlyBelow(w, st.base, n + 9) {
        forall i: nat ensures HasBroker(a.world, st.base, i) <==> i < Wanted(st) {
          assert HasBroker(a.world, st.base, i) <==> HasBroker(Services(api, Ticked(w), st).world, st.base, i);
          if i >= n + 9 {
            assert !HasBroker(w, st.base, i);
          }
        }
      } else {
        var i: nat :| HasBroker(w, st.base, i) && i >= n + 9;
        assert HasBroker(a.world, st.base, i);
      }
    }
  }

  // ---------------------------------------------------------------- whole runs

  /** The cluster hands out NodePorts of its range, and inferred addresses are clean. */
  ghost predicate Sane(api: Api) {
    && (forall n :: InRange(api.fate(n).port))
    && (api.inferredHost.Some? ==> api.inferredHost.value != "" && Trim(api.inferredHost.value) == api.inferredHost.value)
  }

  /** What every reachable cluster keeps: broker Services have ordinals below 9 and a single
      NodePort of the range. */
  ghost predicate Tidy(w: World, base: string) {
    forall i: nat :: HasBroker(w, base, i) ==> i < MAX_REPLICAS && TidyService(w.services[ServiceName(base, i)])
  }

  predicate TidyService(s: Service) {
    |s.nodePorts| == 1 && InRange(s.nodePorts[0])
  }

  lemma UpsertTidy(api: Api, w: World, name: string, requested: int)
    requires Sane(api) && (name in w.services ==> TidyService(w.services[name]))
    ensures var w' := Upsert(api, w, name, requested).0; name in w'.services ==> TidyService(w'.services[name])
  {
  }

  lemma {:induction false} UpsertAllTidy(api: Api, w: World, base: string, requested: seq<int>, n: nat)
    requires n <= |requested| <= MAX_REPLICAS && Sane(api) && Tidy(w, base)
    ensures Tidy(UpsertAll(api, w, base, requested, n).0, base)
  {
    hide Upsert, ServiceName, TidyService;
    if n > 0 {
      UpsertAllTidy(api, w, base, requested, n - 1);
      var (w1, done) := UpsertAll(api, w, base, requested, n - 1);
      if done.Some? {
        var name := ServiceName(base, n - 1);
        if name in w1.services {
          assert HasBroker(w1, base, n - 1);
        }
        UpsertTidy(api, w1, name, requested[n - 1]);
        UpsertEffect(api, w1, name, requested[n - 1]);
        var w' := UpsertAll(api, w, base, requested, n).0;
        forall i: nat | HasBroker(w', base, i)
          ensures i < MAX_REPLICAS && TidyService(w'.services[ServiceName(base, i)])
        {
          if i != n - 1 {
            if ServiceName(base, i) == name {
              ServiceNameInjective(base, i, base, n - 1);
            }
            assert SameAt(w1, w', ServiceName(base, i));
            assert HasBroker(w1, base, i);
          }
        }
      }
    }
  }

  lemma DeleteRangeTidy(w: World, base: string, from: nat, to: int)
    requires Tidy(w, base)
    ensures Tidy(DeleteRange(w, base, from, to), base)
  {
    hide ServiceName, TidyService;
    DeleteRangeEffect(w, base, from, to);
    var w' := DeleteRange(w, base, from, to);
    forall i: nat | HasBroker(w', base, i)
      ensures i < MAX_REPLICAS && TidyService(w'.services[ServiceName(base, i)])
    {
      assert SameAt(w, w', ServiceName(base, i));
      assert HasBroker(w, base, i);
    }
  }

  lemma ApplyTidy(api: Api, w: World, st: Instance)
    requires Replicas(st) <= MAX_REPLICAS && Sane(api) && Tidy(w, st.base)
    ensures Tidy(Apply(api, w, st).world, st.base)
  {
    hide ServiceName, TidyService, UpsertAll, DeleteRange, PatchedSet, Csv;
    var n := Replicas(st);
    var w1 := Ticked(w);
    var req := if |st.ports| == n then st.ports else Zeros(n);
    UpsertAllTidy(api, w1, st.base, req, n);
    DeleteRangeTidy(UpsertAll(api, w1, st.base, req, n).0, st.base, n, n + 8);
    DeleteRangeTidy(w1, st.base, 0, n + 8);
  }

  /** An exposure change of some instance, or the deletion of one (ordinals 0 to 16). */
  datatype Op = Expose(api: Api, st: Instance) | Remove(base: string)

  function After(w: World, op: Op): World {
    match op
    case Expose(api, st) => Apply(api, w, st).world
    case Remove(base) => DeleteRange(w, base, 0, 16)
  }

  function AfterAll(w: World, ops: seq<Op>): World {
    if ops == [] then w else After(AfterAll(w, ops[..|ops| - 1]), ops[|ops| - 1])
  }

  ghost predicate Legal(ops: seq<Op>) {
    forall i :: 0 <= i < |ops| && ops[i].Expose? ==> Replicas(ops[i].st) <= MAX_REPLICAS && Sane(ops[i].api)
  }

  function BaseOf(op: Op): string {
    if op.Expose? then op.st.base else op.base
  }

  /** Any run of changes, of this or other instances and including ones that fail part-way, keeps
      every instance tidy. */
  lemma {:induction false} RunKeepsTidy(w: World, ops: seq<Op>, base: string)
    requires Legal(ops) && Tidy(w, base)
    ensures Tidy(AfterAll(w, ops), base)
  {
    if ops != [] {
      var init, op := ops[..|ops| - 1], ops[|ops| - 1];
      RunKeepsTidy(w, init, base);
      var w1 := AfterAll(w, init);
      if BaseOf(op) == base {
        match op {
          case Expose(api, st) => ApplyTidy(api, w1, st);
          case Remove(b) => DeleteRangeTidy(w1, b, 0, 16);
        }
      } else {
        OtherInstanceUnchanged(w1, op, base);
      }
    }
  }

  lemma OtherInstanceUnchanged(w: World, op: Op, base: string)
    requires BaseOf(op) != base
    ensures forall i: nat :: SameAt(w, After(w, op), ServiceName(base, i))
    ensures Tidy(w, base) ==> Tidy(After(w, op), base)
  {
    match op {
      case Expose(api, st) => ApplyEffect(api, w, st);
      case Remove(b) => DeleteRangeEffect(w, b, 0, 16);
    }
    hide ServiceName, After, TidyService;
    var w' := After(w, op);
    forall i: nat ensures SameAt(w, w', ServiceName(base, i)) {
      if IsBrokerName(BaseOf(op), ServiceName(base, i)) {
        var j: nat :| ServiceName(base, i) == ServiceName(BaseOf(op), j);
        ServiceNameInjective(base, i, BaseOf(op), j);
      }
    }
    forall i: nat | HasBroker(w', base, i) && Tidy(w, base)
      ensures i < MAX_REPLICAS && TidyService(w'.services[ServiceName(base, i)])
    {
      assert SameAt(w, w', ServiceName(base, i));
      assert HasBroker(w, base, i);
    }
  }

  /** Ports given are kept; ports of the wrong number or out of range, or a nodeport instance without
      any host, are refused before anything changes. */
  lemma PortsAsked(api: Api, w: World, st: Instance)
    ensures var a := Apply(api, w, st);
            var n: nat := if st.replicas <= 0 then 3 else st.replicas; var nodeport := Lower(Trim(st.exposure)) == "nodeport";
            && (a.ok && nodeport && st.ports != [] ==>
                  a.st.ports == st.ports && |st.ports| == n && forall i :: 0 <= i < n ==> 30000 <= st.ports[i] <= 32767)
            && (nodeport && (|st.ports| !in {0, n} || exists i :: 0 <= i < |st.ports| && !(30000 <= st.ports[i] <= 32767)) ==>
                  !a.ok && a.world.services == w.services && a.world.sts == w.sts)
            && (nodeport && Trim(st.host) == "" && api.inferredHost.None? ==>
                  !a.ok && a.world.services == w.services && a.world.sts == w.sts)
            && (!nodeport && a.ok ==> a.st == st)
            && (w.sts.None? || !w.sts.value.hasKafka ==> !a.ok && a.world.services == w.services && a.world.sts == w.sts)
  {
    hide UpsertAll, DeleteRange, PatchedSet, Csv, Trim, Lower;
  }

  /** After any such run, a successful exposure leaves exactly the brokers 0..replicas-1 with a
      Service in nodeport mode, broker i on the instance's i-th port, and none in internal mode;
      and deleting the instance leaves none. */
  lemma ExposureIsExact(w: World, ops: seq<Op>, api: Api, st: Instance)
    requires Legal(ops) && Tidy(w, st.base) && Replicas(st) <= MAX_REPLICAS && Sane(api)
    ensures var now := AfterAll(w, ops); var a := Apply(api, now, st);
            var n: nat := if st.replicas <= 0 then 3 else st.replicas; var nodeport := Lower(Trim(st.exposure)) == "nodeport";
            && (a.ok ==> Exactly(a.world, st.base, if nodeport then n else 0))
            && (a.ok && nodeport ==>
                  && |a.st.ports| == n && (st.ports != [] ==> a.st.ports == st.ports)
                  && forall i :: 0 <= i < n ==> BrokerPort(a.world, st.base, i, a.st.ports[i]))
            && Exactly(DeleteRange(now, st.base, 0, 16), st.base, 0)
  {
    RunKeepsTidy(w, ops, st.base);
    var now := AfterAll(w, ops);
    hide ServiceName, Apply, AfterAll, DeleteRange, Trim, Lower;
    PortsAsked(api, now, st);
    ApplyEffect(api, now, st);
    ApplyTidy(api, now, st);
    var a := Apply(api, now, st);
    assert OnlyBelow(now, st.base, Replicas(st) + 9);
    if a.ok && IsNodePort(st) {
      forall i | 0 <= i < Replicas(st) ensures BrokerPort(a.world, st.base, i, a.st.ports[i]) {
        assert BrokerFirst(a.world, st.base, i, a.st.ports[i]);
        assert TidyService(a.world.services[ServiceName(st.base, i)]);
      }
    }
    DeleteRangeEffect(now, st.base, 0, 16);
    var gone := DeleteRange(now, st.base, 0, 16);
    forall i: nat ensures !HasBroker(gone, st.base, i) {
      if i > 16 {
        assert SameAt(now, gone, ServiceName(st.base, i));
        assert !HasBroker(now, st.base, i);
      }
    }
  }
}
