/** What a good sync report is worth: internal/baota_sync_run.go, lines 55-156 and 225-307, with
    the reading of answers in internal/baota.go, lines 193-243. */
module PanelTrust {
  import opened Options
  import opened JsonPaths
  import opened PanelReply
  import opened BaotaLookup
  import opened PanelSync

  // ---------------------------------------------------------------- what a run does to a panel

  predicate MakesAt(env: Env, w: World, cfg: Config, ts: seq<ProxyTarget>, j: nat, u: string, q: Request)
    requires j < |ts|
  {
    Makes(env, SyncPrefix(env, w, cfg, ts, j).0, cfg, ts[j], u, q)
  }

  /** Some call for q in the steps of targets from..to took effect on the panel at u. */
  predicate Made(env: Env, w: World, cfg: Config, ts: seq<ProxyTarget>, from: nat, to: nat, u: string, q: Request)
    requires to <= |ts|
  {
    exists j :: from <= j < to && MakesAt(env, w, cfg, ts, j, u, q)
  }

  /** Over any stretch of a run, a thing is on a panel at the end exactly if it was there at the
      start or one of the calls for it took effect: nothing is lost. */
  lemma {:induction false} RunEffect(env: Env, w: World, cfg: Config, ts: seq<ProxyTarget>, from: nat, to: nat,
                                     u: string, q: Request)
    requires from <= to <= |ts|
    ensures Present(PanelAt(SyncPrefix(env, w, cfg, ts, to).0, u), q)
            <==> Present(PanelAt(SyncPrefix(env, w, cfg, ts, from).0, u), q) || Made(env, w, cfg, ts, from, to, u, q)
  {
    hide Present, PanelAt, SyncPrefix, Made, MakesAt;
    if from < to {
      RunEffect(env, w, cfg, ts, from, to - 1, u, q);
      MadeStep(env, w, cfg, ts, from, to - 1, u, q);
      TargetStep(env, w, cfg, ts, to - 1, u, q);
    } else {
      MadeNothing(env, w, cfg, ts, from, u, q);
    }
  }

  lemma MadeStep(env: Env, w: World, cfg: Config, ts: seq<ProxyTarget>, from: nat, n: nat, u: string, q: Request)
    requires from <= n < |ts|
    ensures Made(env, w, cfg, ts, from, n + 1, u, q) <==> Made(env, w, cfg, ts, from, n, u, q) || MakesAt(env, w, cfg, ts, n, u, q)
  {
    hide MakesAt, SyncPrefix;
  }

  lemma TargetStep(env: Env, w: World, cfg: Config, ts: seq<ProxyTarget>, n: nat, u: string, q: Request)
    requires n < |ts|
    ensures Present(PanelAt(SyncPrefix(env, w, cfg, ts, n + 1).0, u), q)
            <==> Present(PanelAt(SyncPrefix(env, w, cfg, ts, n).0, u), q) || MakesAt(env, w, cfg, ts, n, u, q)
  {
    hide Present, PanelAt, Makes, Ensure;
    EnsureEffect(env, SyncPrefix(env, w, cfg, ts, n).0, cfg, ts[n], u, q);
  }

  lemma MadeNothing(env: Env, w: World, cfg: Config, ts: seq<ProxyTarget>, n: nat, u: string, q: Request)
    requires n <= |ts|
    ensures !Made(env, w, cfg, ts, n, n, u, q)
  {
  }

  lemma RunStart(env: Env, w: World, cfg: Config, ts: seq<ProxyTarget>)
    ensures SyncPrefix(env, w, cfg, ts, 0).0 == w
  {
  }

  /** The exact worth of a run, its reports aside: target i is served at the end just when its site
      and its proxy each were there before the run or were made by a call of the run. */
  lemma ServedAfterRun(env: Env, w: World, cfg: Config, ts: seq<ProxyTarget>, i: nat)
    requires i < |ts|
    ensures var u := PanelUrlOf(cfg, ts[i]); var p := PanelAt(w, u);
            Served(env, SyncPrefix(env, w, cfg, ts, |ts|).0, cfg, ts[i])
            <==> && (Present(p, SiteOf(ts[i])) || Made(env, w, cfg, ts, 0, |ts|, u, SiteOf(ts[i])))
                 && (Present(p, ProxyOf(env, ts[i])) || Made(env, w, cfg, ts, 0, |ts|, u, ProxyOf(env, ts[i])))
  {
    RunStart(env, w, cfg, ts);
    RunEffect(env, w, cfg, ts, 0, |ts|, PanelUrlOf(cfg, ts[i]), SiteOf(ts[i]));
    RunEffect(env, w, cfg, ts, 0, |ts|, PanelUrlOf(cfg, ts[i]), ProxyOf(env, ts[i]));
    hide Present, Made, SyncPrefix, PanelUrlOf, SiteOf, ProxyOf;
  }

  // ---------------------------------------------------------------- accepted answers that are true

  /** When call i returns, the thing is there: that call made it, or it was there. */
  predicate TrueAt(env: Env, w: World, url: string, r: Request, i: nat) {
    TookAt(env, w, url, r, i) || Present(PanelAt(WorldAt(env, w, url, r, i), url), r)
  }

  lemma LastCallDecides(env: Env, w: World, url: string, r: Request)
    ensures var a := Retry(env, w, url, r, 1);
            a.attempts >= 1 && (Present(PanelAt(a.world, url), r) <==> TrueAt(env, w, url, r, a.attempts - 1))
  {
    RetryOutcome(env, w, url, r);
    var a := Retry(env, w, url, r, 1);
    WorldAtOutcome(env, w, url, r, a.attempts - 1);
    TookMore(env, w, url, r, a.attempts - 1);
    hide Retry, OnlyMayCreate, WorldAt, ResponseAt, ReplyTo, Took, PanelAt;
  }

  /** After a good report the domain is served exactly if the two answers that were accepted, the
      last one of the site step and the last one of the proxy step, were true. */
  lemma GoodReportServes(env: Env, w: World, cfg: Config, t: ProxyTarget)
    ensures var url := PanelUrlOf(cfg, t); var site, proxy := SiteStep(env, w, cfg, t), ProxyStep(env, w, cfg, t);
            && site.attempts >= 1 && proxy.attempts >= 1
            && (Ensure(env, w, cfg, t).1.overallOk ==>
                  && AcceptedAt(env, w, url, SiteOf(t), site.attempts - 1)
                  && AcceptedAt(env, site.world, url, ProxyOf(env, t), proxy.attempts - 1)
                  && (Served(env, Ensure(env, w, cfg, t).0, cfg, t)
                      <==> && TrueAt(env, w, url, SiteOf(t), site.attempts - 1)
                           && TrueAt(env, site.world, url, ProxyOf(env, t), proxy.attempts - 1)))
  {
    hide PanelUrlOf, PanelIdOf, Retry, RetryHttps, OnlyMayCreate, TrueAt, Took, Present, ReplyTo, ResponseAt;
    var url := PanelUrlOf(cfg, t);
    var site, proxy := SiteStep(env, w, cfg, t), ProxyStep(env, w, cfg, t);
    RetryOutcome(env, w, url, SiteOf(t));
    RetryOutcome(env, site.world, url, ProxyOf(env, t));
    LastCallDecides(env, w, url, SiteOf(t));
    LastCallDecides(env, site.world, url, ProxyOf(env, t));
    StepEffect(env, site.world, url, ProxyOf(env, t), url, SiteOf(t));
    RetryHttpsOutcome(env, proxy.world, 1);
    SameThingOnly(env, t);
    assert PanelAt(Ensure(env, w, cfg, t).0, url) == PanelAt(proxy.world, url);
  }

  lemma SameThingOnly(env: Env, t: ProxyTarget)
    ensures !SameThing(SiteOf(t), ProxyOf(env, t))
  {
  }

  /** Whatever state a panel is in, an answer that is accepted is true. */
  ghost predicate Truthful(env: Env) {
    forall n: nat, p: Panel, r: Request :: TruthfulAnswer(env, n, p, r)
  }

  predicate TruthfulAnswer(env: Env, n: nat, p: Panel, r: Request) {
    var x := env.react(n, p, r);
    ReplyTo(env.parse, x.response) != Error ==> x.effect || Present(p, r)
  }

  /** The same, for the answers of one kind. */
  ghost predicate TruthfulKind(env: Env, k: Kind) {
    forall n: nat, p: Panel, r: Request ::
      IsKind(env.parse, env.react(n, p, r).response, k) ==> env.react(n, p, r).effect || Present(p, r)
  }

  /** So a panel is truthful if its confirmations are, if what it complains of as existing exists,
      and if it does what it is asked whenever its answer says nothing. */
  lemma TruthfulKinds(env: Env)
    ensures Truthful(env) <==> forall k :: TruthfulKind(env, k)
  {
    forall n: nat, p: Panel, r: Request
      ensures TruthfulAnswer(env, n, p, r) <==>
              forall k :: IsKind(env.parse, env.react(n, p, r).response, k) ==> env.react(n, p, r).effect || Present(p, r)
    {
      AcceptedKinds(env.parse, env.react(n, p, r).response);
      hide ReplyTo, IsKind, Present;
    }
    hide IsKind, Present;
    if Truthful(env) {
      forall k ensures TruthfulKind(env, k) {
        forall n: nat, p: Panel, r: Request | IsKind(env.parse, env.react(n, p, r).response, k)
          ensures env.react(n, p, r).effect || Present(p, r)
        {
          assert TruthfulAnswer(env, n, p, r);
        }
      }
    }
    if forall k :: TruthfulKind(env, k) {
      forall n: nat, p: Panel, r: Request ensures TruthfulAnswer(env, n, p, r) {
        forall k | IsKind(env.parse, env.react(n, p, r).response, k)
          ensures env.react(n, p, r).effect || Present(p, r)
        {
          assert TruthfulKind(env, k);
        }
      }
    }
  }

  predicate StepIsRight(env: Env, w: World, url: string, r: Request) {
    var a := Retry(env, w, url, r, 1);
    a.ok ==> Present(PanelAt(a.world, url), r)
  }

  lemma TruthfulAt(env: Env, w: World, url: string, r: Request, i: nat)
    requires Truthful(env) && AcceptedAt(env, w, url, r, i)
    ensures TrueAt(env, w, url, r, i)
  {
    var now := WorldAt(env, w, url, r, i);
    assert TruthfulAnswer(env, now.calls, PanelAt(now, url), r);
    hide WorldAt, PanelAt, ReplyTo, Present;
  }

  lemma TruthfulStep(env: Env, w: World, url: string, r: Request)
    requires Truthful(env)
    ensures StepIsRight(env, w, url, r)
  {
    var a := Retry(env, w, url, r, 1);
    RetryOutcome(env, w, url, r);
    LastCallDecides(env, w, url, r);
    if a.ok {
      TruthfulAt(env, w, url, r, a.attempts - 1);
    }
    hide Truthful, Retry, Took, OnlyMayCreate, PanelAt, Present, TrueAt, ReplyTo, ResponseAt;
  }

  /** A step reported as ok can be relied on, in every situation, exactly if panels are truthful. */
  lemma StepsAreRightIffTruthful(env: Env)
    ensures (forall w, url, r :: StepIsRight(env, w, url, r)) <==> Truthful(env)
  {
    if Truthful(env) {
      forall w, url, r ensures StepIsRight(env, w, url, r) {
        TruthfulStep(env, w, url, r);
      }
    }
    if forall w, url, r :: StepIsRight(env, w, url, r) {
      forall n: nat, p: Panel, r: Request ensures TruthfulAnswer(env, n, p, r) {
        var w := World(map["" := p], n);
        assert StepIsRight(env, w, "", r);
        assert PanelAt(w, "") == p;
      }
    }
  }

  lemma TruthfulEnsure(env: Env, w: World, cfg: Config, t: ProxyTarget)
    requires Truthful(env) && Ensure(env, w, cfg, t).1.overallOk
    ensures Served(env, Ensure(env, w, cfg, t).0, cfg, t)
  {
    hide *;
    var u, mid := PanelUrlOf(cfg, t), SiteStep(env, w, cfg, t).world;
    GoodReportServes(env, w, cfg, t);
    TruthfulAt(env, w, u, SiteOf(t), SiteStep(env, w, cfg, t).attempts - 1);
    TruthfulAt(env, mid, u, ProxyOf(env, t), ProxyStep(env, w, cfg, t).attempts - 1);
  }

  /** Truthful panels: at the end of a run every target with a good report is served, whatever the
      failed attempts and the other targets did. */
  lemma GoodRunServes(env: Env, w: World, cfg: Config, ts: seq<ProxyTarget>, i: nat)
    requires i < |ts| && Truthful(env)
    ensures var (w', reps) := SyncPrefix(env, w, cfg, ts, |ts|);
            reps[i].overallOk ==> Served(env, w', cfg, ts[i])
  {
    var w1, u := SyncPrefix(env, w, cfg, ts, i).0, PanelUrlOf(cfg, ts[i]);
    PrefixReport(env, w, cfg, ts, i, |ts|);
    if Ensure(env, w1, cfg, ts[i]).1.overallOk {
      TruthfulEnsure(env, w1, cfg, ts[i]);
      assert Served(env, SyncPrefix(env, w, cfg, ts, i + 1).0, cfg, ts[i]) by {
        hide Ensure, Served;
      }
      RunEffect(env, w, cfg, ts, i + 1, |ts|, u, SiteOf(ts[i]));
      RunEffect(env, w, cfg, ts, i + 1, |ts|, u, ProxyOf(env, ts[i]));
      hide Truthful, SyncPrefix, Made, Present, PanelAt, PanelUrlOf;
    }
  }

  /** Report i of a run is that of target i's steps in the world the earlier ones left. */
  lemma {:induction false} PrefixReport(env: Env, w: World, cfg: Config, ts: seq<ProxyTarget>, i: nat, n: nat)
    requires i < n <= |ts|
    ensures SyncPrefix(env, w, cfg, ts, n).1[i] == Ensure(env, SyncPrefix(env, w, cfg, ts, i).0, cfg, ts[i]).1
  {
    hide Ensure;
    if i < n - 1 {
      PrefixReport(env, w, cfg, ts, i, n - 1);
    }
  }

  // ---------------------------------------------------------------- re-running

  /** From call c on, every answer is accepted. */
  ghost predicate AcceptsFrom(env: Env, c: nat) {
    forall n: nat, p: Panel, r: Request :: n >= c ==> ReplyTo(env.parse, env.react(n, p, r).response) != Error
  }

  lemma AcceptedRetry(env: Env, w: World, url: string, r: Request)
    requires AcceptsFrom(env, w.calls)
    ensures var a := Retry(env, w, url, r, 1);
            && a.ok && a.attempts == 1 && a.world.calls == w.calls + 1
            && (Present(PanelAt(w, url), r) && url in w.panels ==> a.world.panels == w.panels)
  {
    hide ReplyTo;
    var x := env.react(w.calls, PanelAt(w, url), r);
    assert ReplyTo(env.parse, x.response) != Error;
    assert Retry(env, w, url, r, 1) == Attempted(Call(env, w, url, r).0, true, 1);
  }

  predicate FirstTry(rep: DomainReport) {
    && |rep.steps| >= 2
    && rep.steps[0] == Step("site", true, 1) && rep.steps[1] == Step("proxy", true, 1)
  }

  /** On panels whose answers are accepted, one target takes one attempt for its site and one for
      its proxy, and changes nothing if it is served already. */
  lemma AcceptedEnsure(env: Env, w: World, cfg: Config, t: ProxyTarget)
    requires AcceptsFrom(env, w.calls)
    ensures var (w', rep) := Ensure(env, w, cfg, t);
            && FirstTry(rep) && w'.calls >= w.calls
            && (Served(env, w, cfg, t) ==> w'.panels == w.panels)
  {
    var url := PanelUrlOf(cfg, t);
    hide PanelUrlOf, PanelIdOf, Retry, RetryHttps, ReplyTo;
    AcceptedRetry(env, w, url, SiteOf(t));
    var site := SiteStep(env, w, cfg, t);
    AcceptedRetry(env, site.world, url, ProxyOf(env, t));
    RetryHttpsOutcome(env, ProxyStep(env, w, cfg, t).world, 1);
  }

  /** Re-running once everything is served, on panels whose answers are accepted, changes no site or
      proxy and takes a single attempt for every site and proxy step. */
  lemma {:induction false} RerunIsQuiet(env: Env, w: World, cfg: Config, ts: seq<ProxyTarget>, n: nat)
    requires n <= |ts| && AcceptsFrom(env, w.calls)
    requires forall i :: 0 <= i < n ==> Served(env, w, cfg, ts[i])
    ensures var (w', reps) := SyncPrefix(env, w, cfg, ts, n);
            && w'.panels == w.panels && w'.calls >= w.calls
            && forall i :: 0 <= i < n ==> FirstTry(reps[i])
  {
    hide Ensure, FirstTry, ReplyTo, PanelUrlOf;
    if n > 0 {
      RerunIsQuiet(env, w, cfg, ts, n - 1);
      var (w1, reps1) := SyncPrefix(env, w, cfg, ts, n - 1);
      assert Served(env, w, cfg, ts[n - 1]);
      assert Served(env, w1, cfg, ts[n - 1]);
      assert AcceptsFrom(env, w1.calls);
      AcceptedEnsure(env, w1, cfg, ts[n - 1]);
    }
  }

  // ---------------------------------------------------------------- good reports that are wrong

  /** A panel that does nothing and always answers 200 with this body. */
  function Idle(env: Env, body: string): Env {
    env.(react := (_, _, _) => Reaction(Http(200, body), false))
  }

  /** Where answers are accepted and nothing takes effect, the report of a target without HTTPS is good
      although its site is not there. */
  lemma IdleIsWronglyGood(env: Env, body: string, cfg: Config, t: ProxyTarget)
    requires Interpret(env.parse, body) != Error && !t.https
    ensures var (w', rep) := Ensure(Idle(env, body), World(map[], 0), cfg, t);
            rep.overallOk && t.domain !in PanelAt(w', PanelUrlOf(cfg, t)).sites
  {
    var idle, w := Idle(env, body), World(map[], 0);
    var url := PanelUrlOf(cfg, t);
    AcceptedRetry(idle, w, url, SiteOf(t));
    AcceptedRetry(idle, SiteStep(idle, w, cfg, t).world, url, ProxyOf(idle, t));
    EnsureEffect(idle, w, cfg, t, url, SiteOf(t));
    hide PanelUrlOf, PanelIdOf, Interpret, Retry;
    assert !SiteTook(idle, w, cfg, t) && !ProxyTook(idle, w, cfg, t);
  }

  lemma EmptyAnswer(env: Env, cfg: Config, t: ProxyTarget)
    requires !t.https
    ensures var (w', rep) := Ensure(Idle(env, ""), World(map[], 0), cfg, t);
            rep.overallOk && t.domain !in PanelAt(w', PanelUrlOf(cfg, t)).sites
  {
    EmptyBodyIsSuccess(env.parse);
    IdleIsWronglyGood(env, "", cfg, t);
  }

  lemma PageAnswer(env: Env, cfg: Config, t: ProxyTarget)
    requires !t.https
    ensures var (w', rep) := Ensure(Idle(env, "<html>login</html>"), World(map[], 0), cfg, t);
            rep.overallOk && t.domain !in PanelAt(w', PanelUrlOf(cfg, t)).sites
  {
    PageIsSuccess(env.parse);
    IdleIsWronglyGood(env, "<html>login</html>", cfg, t);
  }

  lemma CutOffAnswer(env: Env, cfg: Config, t: ProxyTarget)
    requires !t.https && env.parse("{").None?
    ensures var (w', rep) := Ensure(Idle(env, "{"), World(map[], 0), cfg, t);
            rep.overallOk && t.domain !in PanelAt(w', PanelUrlOf(cfg, t)).sites
  {
    CutOffIsSuccess(env.parse);
    IdleIsWronglyGood(env, "{", cfg, t);
  }

  lemma NoStatusAnswer(env: Env, cfg: Config, t: ProxyTarget)
    requires !t.https && env.parse("{}") == Some(map[])
    ensures var (w', rep) := Ensure(Idle(env, "{}"), World(map[], 0), cfg, t);
            rep.overallOk && t.domain !in PanelAt(w', PanelUrlOf(cfg, t)).sites
  {
    NoStatusIsSuccess(env.parse);
    IdleIsWronglyGood(env, "{}", cfg, t);
  }

  lemma MissingDirectoryAnswer(env: Env, cfg: Config, t: ProxyTarget)
    requires !t.https && env.parse(MISSING_DIR) == Some(map["status" := Bool(false), "msg" := Str(MISSING_MSG)])
    ensures var (w', rep) := Ensure(Idle(env, MISSING_DIR), World(map[], 0), cfg, t);
            rep.overallOk && t.domain !in PanelAt(w', PanelUrlOf(cfg, t)).sites
  {
    MissingIsAlreadyExists(env.parse);
    IdleIsWronglyGood(env, MISSING_DIR, cfg, t);
  }

  /** A stale proxy under a good report: the panel knows a.example with the old address, its answers
      are accepted, and the new address never gets there. */
  lemma StaleProxyKept(env: Env, cfg: Config)
    ensures var t := ProxyTarget("a.example", "http://10.0.0.2:80", false, "");
            var key := (t.domain, env.proxyName(t.domain)); var url := PanelUrlOf(cfg, t);
            var w := World(map[url := Panel({t.domain}, map[key := "http://10.0.0.1:80"])], 0);
            var (w', rep) := Ensure(Idle(env, ""), w, cfg, t);
            rep.overallOk && key in PanelAt(w', url).proxies && PanelAt(w', url).proxies[key] == "http://10.0.0.1:80" != t.url
  {
    var idle := Idle(env, "");
    var t := ProxyTarget("a.example", "http://10.0.0.2:80", false, "");
    var key, url := (t.domain, env.proxyName(t.domain)), PanelUrlOf(cfg, t);
    var w := World(map[url := Panel({t.domain}, map[key := "http://10.0.0.1:80"])], 0);
    EmptyBodyIsSuccess(env.parse);
    AcceptedRetry(idle, w, url, SiteOf(t));
    AcceptedRetry(idle, SiteStep(idle, w, cfg, t).world, url, ProxyOf(idle, t));
    hide PanelUrlOf, PanelIdOf, Interpret, Retry;
    assert "http://10.0.0.1:80"[14] != t.url[14];
  }
}
