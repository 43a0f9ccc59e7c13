/** Pushing Ingress domains to the Baota panels: internal/baota_sync_run.go. */
module PanelSync {
  import opened Text
  import opened PanelReply
  import opened BaotaLookup

  // ---------------------------------------------------------------- the panels

  datatype Request = AddSite(domain: string) | CreateProxy(domain: string, name: string, url: string)

  /** What a panel holds: its sites, and the url behind each (site, proxy name). */
  datatype Panel = Panel(sites: set<string>, proxies: map<(string, string), string>)

  /** What a call brings: the response, and, independently of it, whether the call took effect. */
  datatype Reaction = Reaction(response: Response, effect: bool)

  /** The environment: how JSON bodies parse, the reaction of a panel in a given state to the n-th
      call, the outcome of the n-th certificate call, and the proxy name of a domain. */
  datatype Env = Env(parse: Parser, react: (nat, Panel, Request) -> Reaction, https: nat -> bool, proxyName: string -> string)

  /** All panels by url, and the number of calls made so far. */
  datatype World = World(panels: map<string, Panel>, calls: nat)

  function PanelAt(w: World, url: string): Panel {
    if url in w.panels then w.panels[url] else Panel({}, map[])
  }

  predicate Present(p: Panel, r: Request) {
    match r
    case AddSite(d) => d in p.sites
    case CreateProxy(d, n, _) => (d, n) in p.proxies
  }

  /** The panel once the requested thing exists; an existing one is left as it is. */
  function Created(p: Panel, r: Request): Panel {
    if Present(p, r) then p else
    match r
    case AddSite(d) => p.(sites := p.sites + {d})
    case CreateProxy(d, n, u) => p.(proxies := p.proxies[(d, n) := u])
  }

  function ReactionTo(env: Env, w: World, url: string, r: Request): Reaction {
    env.react(w.calls, PanelAt(w, url), r)
  }

  /** CallBaotaAPI: the world after the call, and what its answer is taken for. */
  function Call(env: Env, w: World, url: string, r: Request): (World, Reply) {
    var x := ReactionTo(env, w, url, r);
    (World(if x.effect then w.panels[url := Created(PanelAt(w, url), r)] else w.panels, w.calls + 1),
     ReplyTo(env.parse, x.response))
  }

  // ---------------------------------------------------------------- retries

  const MAX_ATTEMPTS := 4

  datatype Attempted = Attempted(world: World, ok: bool, attempts: nat)

  /** The retry loop from attempt k on. */
  function Retry(env: Env, w: World, url: string, r: Request, k: nat): Attempted
    requires 1 <= k <= MAX_ATTEMPTS
    decreases MAX_ATTEMPTS - k
  {
    var (w1, reply) := Call(env, w, url, r);
    if reply != Error then Attempted(w1, true, k)
    else if k == MAX_ATTEMPTS then Attempted(w1, false, k)
    else Retry(env, w1, url, r, k + 1)
  }

  /** The same loop for the certificate step, which leaves sites and proxies alone. */
  function RetryHttps(env: Env, w: World, k: nat): Attempted
    requires 1 <= k <= MAX_ATTEMPTS
    decreases MAX_ATTEMPTS - k
  {
    var w1 := w.(calls := w.calls + 1);
    if env.https(w.calls) then Attempted(w1, true, k)
    else if k == MAX_ATTEMPTS then Attempted(w1, false, k)
    else RetryHttps(env, w1, k + 1)
  }

  /** The world after the first n calls for r. */
  function WorldAt(env: Env, w: World, url: string, r: Request, n: nat): World {
    if n == 0 then w else Call(env, WorldAt(env, w, url, r, n - 1), url, r).0
  }

  function ResponseAt(env: Env, w: World, url: string, r: Request, i: nat): Response {
    ReactionTo(env, WorldAt(env, w, url, r, i), url, r).response
  }

  predicate AcceptedAt(env: Env, w: World, url: string, r: Request, i: nat) {
    ReplyTo(env.parse, ResponseAt(env, w, url, r, i)) != Error
  }

  predicate TookAt(env: Env, w: World, url: string, r: Request, i: nat) {
    ReactionTo(env, WorldAt(env, w, url, r, i), url, r).effect
  }

  /** One of the first n calls for r took effect, whatever its answer. */
  predicate Took(env: Env, w: World, url: string, r: Request, n: nat) {
    exists i :: 0 <= i < n && TookAt(env, w, url, r, i)
  }

  /** Only the panel at url may differ, and only by having the requested thing. */
  predicate OnlyMayCreate(w: World, w': World, url: string, r: Request) {
    && (PanelAt(w', url) == PanelAt(w, url) || PanelAt(w', url) == Created(PanelAt(w, url), r))
    && w'.panels - {url} == w.panels - {url}
  }

  lemma CallOutcome(env: Env, w: World, url: string, r: Request)
    ensures var (w1, reply) := Call(env, w, url, r); var took := ReactionTo(env, w, url, r).effect;
            && w1.calls == w.calls + 1 && OnlyMayCreate(w, w1, url, r)
            && PanelAt(w1, url) == (if took then Created(PanelAt(w, url), r) else PanelAt(w, url))
            && (Present(PanelAt(w, url), r) ==> PanelAt(w1, url) == PanelAt(w, url))
  {
  }

  lemma CreatedTwice(w: World, w1: World, w2: World, url: string, r: Request)
    requires OnlyMayCreate(w, w1, url, r) && OnlyMayCreate(w1, w2, url, r)
    ensures OnlyMayCreate(w, w2, url, r)
  {
    hide PanelAt;
  }

  lemma TookMore(env: Env, w: World, url: string, r: Request, n: nat)
    ensures Took(env, w, url, r, n + 1) <==> Took(env, w, url, r, n) || TookAt(env, w, url, r, n)
  {
  }

  /** After n calls the panel has the thing if one of them took effect, and is else as before. */
  lemma {:induction false} WorldAtOutcome(env: Env, w: World, url: string, r: Request, n: nat)
    ensures var w' := WorldAt(env, w, url, r, n); var p := PanelAt(w, url);
            && w'.calls == w.calls + n && OnlyMayCreate(w, w', url, r)
            && PanelAt(w', url) == if Took(env, w, url, r, n) then Created(p, r) else p
  {
    hide Call, OnlyMayCreate, PanelAt, Took, ReactionTo;
    if n == 0 {
      NothingHappens(env, w, url, r);
    } else {
      var w1 := WorldAt(env, w, url, r, n - 1);
      WorldAtOutcome(env, w, url, r, n - 1);
      CallOutcome(env, w1, url, r);
      CreatedTwice(w, w1, WorldAt(env, w, url, r, n), url, r);
      TookMore(env, w, url, r, n - 1);
    }
  }

  lemma NothingHappens(env: Env, w: World, url: string, r: Request)
    ensures OnlyMayCreate(w, w, url, r) && !Took(env, w, url, r, 0)
  {
  }

  /** The loop as it stands before call j. */
  lemma {:induction false} RetryFrom(env: Env, w: World, url: string, r: Request, j: nat)
    requires j < MAX_ATTEMPTS && forall i :: 0 <= i < j ==> !AcceptedAt(env, w, url, r, i)
    ensures var a := Retry(env, WorldAt(env, w, url, r, j), url, r, j + 1);
            && j < a.attempts <= MAX_ATTEMPTS && a.world == WorldAt(env, w, url, r, a.attempts)
            && (a.ok <==> AcceptedAt(env, w, url, r, a.attempts - 1))
            && (forall i :: 0 <= i < a.attempts - 1 ==> !AcceptedAt(env, w, url, r, i))
            && (!a.ok ==> a.attempts == MAX_ATTEMPTS)
    decreases MAX_ATTEMPTS - j
  {
    assert (Call(env, WorldAt(env, w, url, r, j), url, r).1 != Error) == AcceptedAt(env, w, url, r, j);
    hide Call, AcceptedAt;
    if !AcceptedAt(env, w, url, r, j) && j + 1 < MAX_ATTEMPTS {
      RetryFrom(env, w, url, r, j + 1);
    }
  }

  /** A step stops at its first accepted answer and succeeds exactly if its last answer is
      accepted; it leaves the thing in place exactly if it was there before or one of the calls,
      failed ones included, took effect; and it touches nothing else. */
  lemma RetryOutcome(env: Env, w: World, url: string, r: Request)
    ensures var a := Retry(env, w, url, r, 1); var p := PanelAt(w, url);
            && 1 <= a.attempts <= MAX_ATTEMPTS && a.world.calls == w.calls + a.attempts
            && (a.ok <==> ReplyTo(env.parse, ResponseAt(env, w, url, r, a.attempts - 1)) != Error)
            && (forall i :: 0 <= i < a.attempts - 1 ==> ReplyTo(env.parse, ResponseAt(env, w, url, r, i)) == Error)
            && (!a.ok ==> a.attempts == MAX_ATTEMPTS)
            && OnlyMayCreate(w, a.world, url, r)
            && PanelAt(a.world, url) == (if Took(env, w, url, r, a.attempts) then Created(p, r) else p)
            && (Present(PanelAt(a.world, url), r) <==> Present(p, r) || Took(env, w, url, r, a.attempts))
  {
    RetryFrom(env, w, url, r, 0);
    var a := Retry(env, w, url, r, 1);
    WorldAtOutcome(env, w, url, r, a.attempts);
    hide Retry, PanelAt, Took, OnlyMayCreate, ResponseAt, ReplyTo;
    forall i | 0 <= i < a.attempts ensures AcceptedAt(env, w, url, r, i) == (ReplyTo(env.parse, ResponseAt(env, w, url, r, i)) != Error) {
    }
  }

  lemma {:induction false} RetryHttpsOutcome(env: Env, w: World, k: nat)
    requires 1 <= k <= MAX_ATTEMPTS
    ensures var a := RetryHttps(env, w, k);
            && k <= a.attempts <= MAX_ATTEMPTS && a.world.panels == w.panels && a.world.calls == w.calls + a.attempts - k + 1
            && (a.ok <==> env.https(a.world.calls - 1))
            && (forall i: nat :: w.calls <= i < a.world.calls - 1 ==> !env.https(i))
            && (!a.ok ==> a.attempts == MAX_ATTEMPTS)
    decreases MAX_ATTEMPTS - k
  {
    if !env.https(w.calls) && k < MAX_ATTEMPTS {
      RetryHttpsOutcome(env, w.(calls := w.calls + 1), k + 1);
    }
  }

  // ---------------------------------------------------------------- one domain

  datatype ProxyTarget = ProxyTarget(domain: string, url: string, https: bool, targetId: string)

  datatype Step = Step(name: string, ok: bool, attempts: nat)

  datatype DomainReport = DomainReport(domain: string, targetId: string, url: string, https: bool, overallOk: bool,
                                       steps: seq<Step>)

  function PanelIdOf(cfg: Config, t: ProxyTarget): string {
    if Trim(t.targetId) == "" then DefaultTargetId(cfg) else Trim(t.targetId)
  }

  /** The url of the panel chosen for a target. */
  function PanelUrlOf(cfg: Config, t: ProxyTarget): string {
    ConfigForTargetId(cfg, PanelIdOf(cfg, t)).url
  }

  function SiteOf(t: ProxyTarget): Request {
    AddSite(t.domain)
  }

  function ProxyOf(env: Env, t: ProxyTarget): Request {
    CreateProxy(t.domain, env.proxyName(t.domain), t.url)
  }

  function SiteStep(env: Env, w: World, cfg: Config, t: ProxyTarget): Attempted {
    Retry(env, w, PanelUrlOf(cfg, t), SiteOf(t), 1)
  }

  function ProxyStep(env: Env, w: World, cfg: Config, t: ProxyTarget): Attempted {
    Retry(env, SiteStep(env, w, cfg, t).world, PanelUrlOf(cfg, t), ProxyOf(env, t), 1)
  }

  /** The world and the report after one target's steps. */
  function Ensure(env: Env, w: World, cfg: Config, t: ProxyTarget): (World, DomainReport) {
    var site, proxy := SiteStep(env, w, cfg, t), ProxyStep(env, w, cfg, t);
    var steps := [Step("site", site.ok, site.attempts), Step("proxy", proxy.ok, proxy.attempts)];
    if t.https then
      var https := RetryHttps(env, proxy.world, 1);
      (https.world, DomainReport(t.domain, PanelIdOf(cfg, t), t.url, true, site.ok && proxy.ok && https.ok,
                                 steps + [Step("https", https.ok, https.attempts)]))
    else
      (proxy.world, DomainReport(t.domain, PanelIdOf(cfg, t), t.url, false, site.ok && proxy.ok, steps))
  }

  /** One of the target's site calls, or of its proxy calls, took effect. */
  predicate SiteTook(env: Env, w: World, cfg: Config, t: ProxyTarget) {
    Took(env, w, PanelUrlOf(cfg, t), SiteOf(t), SiteStep(env, w, cfg, t).attempts)
  }

  predicate ProxyTook(env: Env, w: World, cfg: Config, t: ProxyTarget) {
    Took(env, SiteStep(env, w, cfg, t).world, PanelUrlOf(cfg, t), ProxyOf(env, t), ProxyStep(env, w, cfg, t).attempts)
  }

  predicate StepsInRange(steps: seq<Step>) {
    forall i :: 0 <= i < |steps| ==> 1 <= steps[i].attempts <= 4
  }

  /** One target: between one and four attempts for each step, and the report is good exactly when
      every step is. */
  lemma EnsureReport(env: Env, w: World, cfg: Config, t: ProxyTarget)
    ensures var (w', rep) := Ensure(env, w, cfg, t);
            && |rep.steps| == (if t.https then 3 else 2) && StepsInRange(rep.steps)
            && rep.steps[0].name == "site" && rep.steps[1].name == "proxy" && (t.https ==> rep.steps[2].name == "https")
            && (rep.overallOk <==> forall i :: 0 <= i < |rep.steps| ==> rep.steps[i].ok)
            && w'.calls >= w.calls
  {
    hide PanelUrlOf, PanelIdOf, Retry, RetryHttps, Present, PanelAt, Took, ResponseAt, ReplyTo;
    var site, proxy := SiteStep(env, w, cfg, t), ProxyStep(env, w, cfg, t);
    RetryOutcome(env, w, PanelUrlOf(cfg, t), SiteOf(t));
    RetryOutcome(env, site.world, PanelUrlOf(cfg, t), ProxyOf(env, t));
    hide OnlyMayCreate;
    var (w', rep) := Ensure(env, w, cfg, t);
    assert rep.steps[0].ok == site.ok && rep.steps[1].ok == proxy.ok;
    if t.https {
      RetryHttpsOutcome(env, proxy.world, 1);
      assert rep.steps[2].ok == RetryHttps(env, proxy.world, 1).ok;
    }
  }

  predicate SameThing(q: Request, r: Request) {
    match q
    case AddSite(d) => r == q
    case CreateProxy(d, n, _) => r.CreateProxy? && r.domain == d && r.name == n
  }

  /** The target's steps made the thing q on the panel at url u. */
  predicate Makes(env: Env, w: World, cfg: Config, t: ProxyTarget, u: string, q: Request) {
    && u == PanelUrlOf(cfg, t)
    && ((SameThing(q, SiteOf(t)) && SiteTook(env, w, cfg, t)) || (SameThing(q, ProxyOf(env, t)) && ProxyTook(env, w, cfg, t)))
  }

  /** Whatever the report says, a thing is on a panel afterwards exactly if it was there before or
      one of the calls for it took effect. */
  lemma EnsureEffect(env: Env, w: World, cfg: Config, t: ProxyTarget, u: string, q: Request)
    ensures Present(PanelAt(Ensure(env, w, cfg, t).0, u), q)
            <==> Present(PanelAt(w, u), q) || Makes(env, w, cfg, t, u, q)
  {
    var url := PanelUrlOf(cfg, t);
    hide PanelUrlOf, PanelIdOf, Retry, RetryHttps;
    var site, proxy := SiteStep(env, w, cfg, t), ProxyStep(env, w, cfg, t);
    StepEffect(env, w, url, SiteOf(t), u, q);
    StepEffect(env, site.world, url, ProxyOf(env, t), u, q);
    RetryHttpsOutcome(env, proxy.world, 1);
    hide Present, Took, SameThing;
    assert PanelAt(Ensure(env, w, cfg, t).0, u) == PanelAt(proxy.world, u);
  }

  lemma StepEffect(env: Env, w: World, url: string, r: Request, u: string, q: Request)
    ensures var a := Retry(env, w, url, r, 1);
            Present(PanelAt(a.world, u), q)
            <==> Present(PanelAt(w, u), q) || (u == url && SameThing(q, r) && Took(env, w, url, r, a.attempts))
  {
    RetryOutcome(env, w, url, r);
    hide Retry, Took, ResponseAt, ReplyTo;
    if u != url {
      OnlyMayCreateAt(w, Retry(env, w, url, r, 1).world, url, r, u);
    }
  }

  lemma OnlyMayCreateAt(w: World, w': World, url: string, r: Request, u: string)
    requires OnlyMayCreate(w, w', url, r) && u != url
    ensures PanelAt(w', u) == PanelAt(w, u)
  {
    var a, b := w.panels - {url}, w'.panels - {url};
    assert u in w.panels <==> u in a;
    assert u in w'.panels <==> u in b;
    if u in w.panels {
      assert a[u] == w.panels[u] && b[u] == w'.panels[u];
    }
  }

  /** The domain has its site and its named proxy on the panel chosen for it. */
  predicate Served(env: Env, w: World, cfg: Config, t: ProxyTarget) {
    var p := PanelAt(w, PanelUrlOf(cfg, t));
    Present(p, SiteOf(t)) && Present(p, ProxyOf(env, t))
  }

  /** An existing proxy is never repointed, whatever the report says: the proxy found after the
      steps has the target's url exactly when it was missing before, or had that url already. */
  lemma ProxyUrlIsCurrent(env: Env, w: World, cfg: Config, t: ProxyTarget)
    ensures var url := PanelUrlOf(cfg, t); var key := (t.domain, env.proxyName(t.domain));
            var before, after := PanelAt(w, url).proxies, PanelAt(Ensure(env, w, cfg, t).0, url).proxies;
            && (key in after <==> key in before || ProxyTook(env, w, cfg, t))
            && (key in after ==> (after[key] == t.url <==> key !in before || before[key] == t.url))
  {
    var url := PanelUrlOf(cfg, t);
    hide PanelUrlOf, PanelIdOf, Retry, RetryHttps, Took, ResponseAt, ReplyTo, OnlyMayCreate;
    var site, proxy := SiteStep(env, w, cfg, t), ProxyStep(env, w, cfg, t);
    RetryOutcome(env, w, url, SiteOf(t));
    RetryOutcome(env, site.world, url, ProxyOf(env, t));
    RetryHttpsOutcome(env, proxy.world, 1);
    assert PanelAt(Ensure(env, w, cfg, t).0, url) == PanelAt(proxy.world, url);
    assert PanelAt(site.world, url).proxies == PanelAt(w, url).proxies;
  }

  // ---------------------------------------------------------------- all domains

  /** The world and the reports after the first n targets. */
  function SyncPrefix(env: Env, w: World, cfg: Config, ts: seq<ProxyTarget>, n: nat): (r: (World, seq<DomainReport>))
    requires n <= |ts|
    ensures |r.1| == n
  {
    if n == 0 then (w, []) else
      var (w1, reps) := SyncPrefix(env, w, cfg, ts, n - 1);
      var (w2, rep) := Ensure(env, w1, cfg, ts[n - 1]);
      (w2, reps + [rep])
  }

  /** Report i is about target i. */
  lemma {:induction false} ReportsFollowTargets(env: Env, w: World, cfg: Config, ts: seq<ProxyTarget>, n: nat)
    requires n <= |ts|
    ensures forall i :: 0 <= i < n ==>
              var rep := SyncPrefix(env, w, cfg, ts, n).1[i];
              rep.domain == ts[i].domain && rep.url == ts[i].url && rep.targetId == PanelIdOf(cfg, ts[i])
  {
    hide SiteStep, ProxyStep, RetryHttps, PanelIdOf, PanelUrlOf;
    if n > 0 {
      ReportsFollowTargets(env, w, cfg, ts, n - 1);
    }
  }
}
