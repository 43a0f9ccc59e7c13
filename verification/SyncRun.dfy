/** One sync run and the reports it stores: internal/baota_sync_run.go, lines 55-156, 158-188 and
    223-308. */
module SyncRun {
  import opened Options
  import opened BaotaLookup
  import opened PanelReply
  import opened PanelSync

  // ---------------------------------------------------------------- inputs and reports

  datatype Trigger = Timer | Manual | Watcher

  /** An Ingress: whether it carries a sync annotation, the hosts of its rules, and what its
      annotations say about the panel side. */
  datatype Ingress = Ingress(managed: bool, hosts: seq<string>, url: string, https: bool, targetId: string)

  /** What a run finds: its trigger, whether timed syncing is on, whether the cluster client and a
      panel are configured, and the Ingress list (None when listing fails). */
  datatype Input = Input(trigger: Trigger, timedSync: bool, ready: bool, ingresses: Option<seq<Ingress>>)

  datatype Skip = Locked | TimerOff | NotReady | ListFailed

  datatype Report = Report(trigger: Trigger, running: bool, skipped: Option<Skip>, domains: seq<DomainReport>, managed: nat)

  function HostTargets(ing: Ingress, n: nat): seq<ProxyTarget>
    requires n <= |ing.hosts|
  {
    if n == 0 then [] else
      var rest := HostTargets(ing, n - 1);
      var h := ing.hosts[n - 1];
      if h == "" then rest else rest + [ProxyTarget(h, ing.url, ing.https, ing.targetId)]
  }

  /** One target for each named host of a managed Ingress, in order. */
  function Targets(ings: seq<Ingress>): seq<ProxyTarget> {
    if ings == [] then [] else
      var rest, last := Targets(ings[..|ings| - 1]), ings[|ings| - 1];
      if last.managed then rest + HostTargets(last, |last.hosts|) else rest
  }

  function ManagedCount(ings: seq<Ingress>): nat {
    if ings == [] then 0 else ManagedCount(ings[..|ings| - 1]) + (if ings[|ings| - 1].managed then 1 else 0)
  }

  lemma {:induction false} HostTargetsCut(ing: Ingress, more: seq<string>, n: nat)
    requires n <= |ing.hosts|
    ensures HostTargets(ing, n) == HostTargets(ing.(hosts := ing.hosts + more), n)
  {
    if n > 0 {
      HostTargetsCut(ing, more, n - 1);
    }
  }

  lemma {:induction false} HostTargetsAdd(ing: Ingress, more: seq<string>, k: nat)
    requires k <= |more|
    ensures var all := ing.(hosts := ing.hosts + more);
            HostTargets(all, |ing.hosts| + k) == HostTargets(ing, |ing.hosts|) + HostTargets(ing.(hosts := more), k)
  {
    if k == 0 {
      HostTargetsCut(ing, more, |ing.hosts|);
    } else {
      HostTargetsAdd(ing, more, k - 1);
    }
  }

  /** The targets of one Ingress after another, in their order. */
  lemma {:induction false} TargetsInOrder(a: seq<Ingress>, b: seq<Ingress>)
    ensures Targets(a + b) == Targets(a) + Targets(b) && ManagedCount(a + b) == ManagedCount(a) + ManagedCount(b)
    decreases |b|
  {
    hide HostTargets;
    if b == [] {
      assert a + b == a;
    } else {
      var init := b[..|b| - 1];
      TargetsInOrder(a, init);
      assert (a + b)[..|a + b| - 1] == a + init;
    }
  }

  /** The targets of one Ingress: those of its hosts, in their order, and for a single host. */
  lemma HostsInOrder(ing: Ingress, more: seq<string>, h: string)
    ensures Targets([ing.(hosts := ing.hosts + more)]) == Targets([ing]) + Targets([ing.(hosts := more)])
    ensures Targets([ing.(hosts := [h])])
            == if ing.managed && h != "" then [ProxyTarget(h, ing.url, ing.https, ing.targetId)] else []
    ensures ManagedCount([ing]) == if ing.managed then 1 else 0
  {
    hide Targets, ManagedCount, HostTargets;
    HostTargetsAdd(ing, more, |more|);
    SingleIngress(ing);
    SingleIngress(ing.(hosts := more));
    SingleIngress(ing.(hosts := ing.hosts + more));
    OneHost(ing, h);
  }

  lemma OneHost(ing: Ingress, h: string)
    ensures Targets([ing.(hosts := [h])])
            == if ing.managed && h != "" then [ProxyTarget(h, ing.url, ing.https, ing.targetId)] else []
  {
    SingleIngress(ing.(hosts := [h]));
    hide Targets, ManagedCount;
    assert HostTargets(ing.(hosts := [h]), 0) == [];
  }

  lemma SingleIngress(ing: Ingress)
    ensures Targets([ing]) == (if ing.managed then HostTargets(ing, |ing.hosts|) else [])
    ensures ManagedCount([ing]) == (if ing.managed then 1 else 0)
  {
    assert [ing][..0] == [];
  }

  function SkipOf(inp: Input): Option<Skip> {
    if inp.trigger == Timer && !inp.timedSync then Some(TimerOff)
    else if !inp.ready then Some(NotReady)
    else if inp.ingresses.None? then Some(ListFailed)
    else None
  }

  function StartReport(inp: Input): Report {
    Report(inp.trigger, true, None, [], 0)
  }

  function TargetsOf(inp: Input): seq<ProxyTarget> {
    if SkipOf(inp).None? then Targets(inp.ingresses.value) else []
  }

  /** The report stored after the first n domains. */
  function Progress(inp: Input, reps: seq<DomainReport>, n: nat): Report
    requires SkipOf(inp).None? && n <= |reps|
  {
    Report(inp.trigger, true, None, reps[..n], ManagedCount(inp.ingresses.value))
  }

  function FinalReport(inp: Input, reps: seq<DomainReport>): Report {
    if SkipOf(inp).Some? then StartReport(inp).(running := false, skipped := SkipOf(inp))
    else Progress(inp, reps, |reps|).(running := false)
  }

  function ProgressReports(inp: Input, reps: seq<DomainReport>, n: nat): (r: seq<Report>)
    requires SkipOf(inp).None? && n <= |reps|
    ensures |r| == n
    ensures forall i :: 0 <= i < n ==> r[i] == Progress(inp, reps, i + 1)
  {
    if n == 0 then [] else ProgressReports(inp, reps, n - 1) + [Progress(inp, reps, n)]
  }

  /** Every report a run that holds the lock stores, in order. */
  function Script(inp: Input, reps: seq<DomainReport>): seq<Report> {
    [StartReport(inp)]
    + (if SkipOf(inp).None? then ProgressReports(inp, reps, |reps|) else [])
    + [FinalReport(inp, reps)]
  }

  /** Along a run: all reports but the last say Running, no entry of Domains is ever changed or
      dropped and at most one is added at a time; the last holds one report for each target. */
  lemma ScriptShape(inp: Input, reps: seq<DomainReport>)
    requires |reps| == |TargetsOf(inp)|
    ensures var s := Script(inp, reps);
            && |s| >= 2
            && (forall i :: 0 <= i < |s| ==> (s[i].running <==> i < |s| - 1))
            && (forall i :: 0 <= i < |s| - 1 ==>
                  s[i].domains <= s[i + 1].domains && |s[i + 1].domains| <= |s[i].domains| + 1)
            && s[0].domains == [] && s[|s| - 1].domains == reps
            && (forall i :: 0 <= i < |s| ==> s[i].domains <= reps)
  {
    var s := Script(inp, reps);
    if SkipOf(inp).None? {
      assert reps[..|reps|] == reps && reps[..0] == [];
      forall i | 0 <= i < |s| - 1
        ensures s[i].domains == reps[..i] && s[i].running
      {
      }
      forall i | 0 <= i < |s| - 1
        ensures s[i].domains <= s[i + 1].domains && |s[i + 1].domains| <= |s[i].domains| + 1
      {
        if i + 1 < |s| - 1 {
          assert s[i + 1].domains == reps[..i + 1];
        }
      }
    }
  }

  // ---------------------------------------------------------------- the run

  /** The process: the lock, the stored report, all reports stored so far, and the panels. */
  class SyncServer {
    const env: Env
    var locked: bool
    var stored: Option<Report>
    var history: seq<Report>
    var world: World

    constructor (env: Env, world: World)
      ensures this.env == env && this.world == world && !locked && stored == None && history == []
    {
      this.env, this.world := env, world;
      locked, stored, history := false, None, [];
    }

    method Persist(rep: Report)
      modifies this`stored, this`history
      ensures stored == Some(rep) && history == old(history) + [rep]
    {
      stored, history := Some(rep), history + [rep];
    }

    method CallPanel(url: string, r: Request) returns (reply: Reply)
      modifies this`world
      ensures (world, reply) == Call(env, old(world), url, r)
    {
      var (w, rp) := Call(env, world, url, r);
      world, reply := w, rp;
    }

    method PostWithRetry(url: string, r: Request) returns (ok: bool, attempts: nat)
      modifies this`world
      ensures Retry(env, old(world), url, r, 1) == Attempted(world, ok, attempts)
    {
      attempts := 0;
      while attempts < MAX_ATTEMPTS
        invariant attempts <= MAX_ATTEMPTS
        invariant attempts < MAX_ATTEMPTS ==>
                    Retry(env, old(world), url, r, 1) == Retry(env, world, url, r, attempts + 1)
        invariant attempts == MAX_ATTEMPTS ==>
                    Retry(env, old(world), url, r, 1) == Attempted(world, false, MAX_ATTEMPTS)
      {
        attempts := attempts + 1;
        var reply := CallPanel(url, r);
        if reply != Error {
          return true, attempts;
        }
      }
      ok := false;
    }

    method HttpsWithRetry() returns (ok: bool, attempts: nat)
      modifies this`world
      ensures RetryHttps(env, old(world), 1) == Attempted(world, ok, attempts)
    {
      attempts, ok := 0, false;
      while attempts < MAX_ATTEMPTS
        invariant attempts <= MAX_ATTEMPTS && !ok
        invariant attempts < MAX_ATTEMPTS ==>
                    RetryHttps(env, old(world), 1) == RetryHttps(env, world, attempts + 1)
        invariant attempts == MAX_ATTEMPTS ==>
                    RetryHttps(env, old(world), 1) == Attempted(world, false, MAX_ATTEMPTS)
      {
        attempts := attempts + 1;
        var answered := env.https(world.calls);
        world := world.(calls := world.calls + 1);
        if answered {
          ok := true;
          break;
        }
      }
    }

    method EnsureSiteAndProxy(cfg: Config, t: ProxyTarget) returns (rep: DomainReport)
      modifies this`world
      ensures (world, rep) == Ensure(env, old(world), cfg, t)
    {
      hide PanelUrlOf, PanelIdOf, Retry, RetryHttps;
      var url := PanelUrlOf(cfg, t);
      rep := DomainReport(t.domain, PanelIdOf(cfg, t), t.url, t.https, true, []);
      var ok, n := PostWithRetry(url, SiteOf(t));
      rep := rep.(steps := rep.steps + [Step("site", ok, n)]);
      if !ok {
        rep := rep.(overallOk := false);
      }
      ghost var site := Step("site", ok, n);
      ok, n := PostWithRetry(url, ProxyOf(env, t));
      ghost var two := [site, Step("proxy", ok, n)];
      rep := rep.(steps := rep.steps + [Step("proxy", ok, n)]);
      if !ok {
        rep := rep.(overallOk := false);
      }
      assert rep.steps == two;
      if t.https {
        ok, n := HttpsWithRetry();
        rep := rep.(steps := rep.steps + [Step("https", ok, n)]);
        if !ok {
          rep := rep.(overallOk := false);
        }
      }
    }

    method ListTargets(ings: seq<Ingress>) returns (targets: seq<ProxyTarget>, managed: nat)
      ensures targets == Targets(ings) && managed == ManagedCount(ings)
    {
      targets, managed := [], 0;
      for i := 0 to |ings|
        invariant targets == Targets(ings[..i]) && managed == ManagedCount(ings[..i])
      {
        assert ings[..i + 1][..i] == ings[..i];
        if !ings[i].managed {
          continue;
        }
        managed := managed + 1;
        var hosts := ings[i].hosts;
        for j := 0 to |hosts|
          invariant targets == Targets(ings[..i]) + HostTargets(ings[i], j)
        {
          if hosts[j] != "" {
            targets := targets + [ProxyTarget(hosts[j], ings[i].url, ings[i].https, ings[i].targetId)];
          }
        }
      }
      assert ings[..|ings|] == ings;
    }

    /** A call that finds the lock taken changes nothing. Any other call stores exactly its script,
        returns the last report stored, leaves the panels as its targets' steps leave them, and
        gives the lock back. */
    method Run(inp: Input, cfg: Config) returns (rep: Report)
      modifies this
      ensures old(locked) ==>
                rep == StartReport(inp).(running := false, skipped := Some(Locked)) && unchanged(this)
      ensures !old(locked) ==>
                var (w, reps) := SyncPrefix(env, old(world), cfg, TargetsOf(inp), |TargetsOf(inp)|);
                && !locked && world == w
                && history == old(history) + Script(inp, reps)
                && rep == FinalReport(inp, reps) && stored == Some(rep)
      ensures !old(locked) ==>
                && rep.trigger == inp.trigger && !rep.running
                && (rep.skipped == Some(TimerOff) <==> inp.trigger.Timer? && !inp.timedSync)
                && (rep.skipped == Some(NotReady) <==> (inp.trigger.Timer? ==> inp.timedSync) && !inp.ready)
                && (rep.skipped.None? <==> (inp.trigger.Timer? ==> inp.timedSync) && inp.ready && inp.ingresses.Some?)
                && rep.skipped != Some(Locked)
                && (rep.skipped.Some? ==> rep.domains == [] && rep.managed == 0 && world == old(world))
                && (rep.skipped.None? ==>
                      rep.managed == ManagedCount(inp.ingresses.value) && |rep.domains| == |Targets(inp.ingresses.value)|)
    {
      hide Ensure, Targets, ManagedCount;
      if locked {
        return StartReport(inp).(running := false, skipped := Some(Locked));
      }
      locked := true;
      rep := StartReport(inp);
      Persist(rep);
      if SkipOf(inp).Some? {
        rep := rep.(running := false, skipped := SkipOf(inp));
        Persist(rep);
        locked := false;
        return;
      }
      var targets, managed := ListTargets(inp.ingresses.value);
      rep := rep.(managed := managed);
      ghost var done := SyncPrefix(env, world, cfg, targets, |targets|).1;
      SyncPrefixStable(env, world, cfg, targets, |targets|);
      for i := 0 to |targets|
        invariant locked && world == SyncPrefix(env, old(world), cfg, targets, i).0
        invariant rep == StartReport(inp).(managed := managed, domains := done[..i])
        invariant history == old(history) + ([StartReport(inp)] + ProgressReports(inp, done, i))
      {
        SyncPrefixStable(env, old(world), cfg, targets, i + 1);
        var dr := EnsureSiteAndProxy(cfg, targets[i]);
        rep := rep.(domains := rep.domains + [dr]);
        assert done[..i + 1] == done[..i] + [dr];
        Persist(rep);
      }
      rep := rep.(running := false);
      assert done[..|targets|] == done;
      Persist(rep);
      locked := false;
    }
  }

  /** The reports of a prefix are a prefix of the reports. */
  lemma {:induction false} SyncPrefixStable(env: Env, w: World, cfg: Config, ts: seq<ProxyTarget>, n: nat)
    requires n <= |ts|
    ensures SyncPrefix(env, w, cfg, ts, n).1 == SyncPrefix(env, w, cfg, ts, |ts|).1[..n]
    decreases |ts| - n
  {
    hide Ensure;
    if n < |ts| {
      SyncPrefixStable(env, w, cfg, ts, n + 1);
    }
  }
}
