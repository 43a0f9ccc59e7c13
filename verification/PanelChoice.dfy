/** Which panel a domain goes to: internal/baota_sync_run.go, lines 83-87, on an accepted list of
    panels. */
module PanelChoice {
  import opened Text
  import opened BaotaTargets
  import opened BaotaLookup
  import opened PanelSync
  import opened PanelTrust

  /** Row r of the configuration is the panel of a target: the row of the id it asks for, or, if it
      asks for none or for an unknown one, the default row. */
  predicate IsRowOf(cfg: Config, t: ProxyTarget, r: nat) {
    && r < |cfg.targets|
    && (cfg.targets[r].id == Trim(t.targetId)
        || (cfg.targets[r].default && forall i :: 0 <= i < |cfg.targets| ==> cfg.targets[i].id != Trim(t.targetId)))
  }

  /** The panel called is that row's, and the report names the id asked for, or the default row's. */
  lemma ChosenPanel(cfg: Config, parses: string -> bool, t: ProxyTarget, r: nat)
    requires Accepted(cfg.targets, parses) && IsRowOf(cfg, t, r)
    ensures PanelUrlOf(cfg, t) == cfg.targets[r].url
    ensures PanelIdOf(cfg, t) == if Trim(t.targetId) == "" then cfg.targets[r].id else Trim(t.targetId)
  {
    EveryIdNonEmpty(cfg.targets, parses);
    TrimIdempotent(t.targetId);
    var d: nat :| OnlyDefault(cfg.targets, d);
    DefaultIndexIs(cfg.targets, d);
    SavedListIsServed(cfg, parses, "");
    SavedListIsServed(cfg, parses, PanelIdOf(cfg, t));
    RowIsTrimmed(cfg.targets[r], parses);
    RowIsTrimmed(cfg.targets[d], parses);
    hide Trim, ConfigForTargetId, DefaultTargetId, DefaultIndex, CleanTarget;
  }

  lemma RowIsTrimmed(t: Target, parses: string -> bool)
    requires CleanTarget(t, parses)
    ensures Trim(t.url) == t.url && t.id != "" && Trim(t.id) == t.id
  {
  }

  /** A target's steps change at most the panel of its row, and its report names the row's id. */
  lemma EnsureTouchesOwnPanel(env: Env, w: World, cfg: Config, parses: string -> bool, t: ProxyTarget, r: nat)
    requires Accepted(cfg.targets, parses) && IsRowOf(cfg, t, r)
    ensures var (w', rep) := Ensure(env, w, cfg, t); var u := cfg.targets[r].url;
            && w'.panels - {u} == w.panels - {u}
            && rep.targetId == (if Trim(t.targetId) == "" then cfg.targets[r].id else Trim(t.targetId))
            && rep.domain == t.domain && rep.url == t.url
  {
    ChosenPanel(cfg, parses, t, r);
    var site := SiteStep(env, w, cfg, t);
    RetryOutcome(env, w, PanelUrlOf(cfg, t), SiteOf(t));
    RetryOutcome(env, site.world, PanelUrlOf(cfg, t), ProxyOf(env, t));
    RetryHttpsOutcome(env, ProxyStep(env, w, cfg, t).world, 1);
    hide PanelUrlOf, PanelIdOf, Retry, RetryHttps, PanelAt, Took, Trim;
  }

  /** A good report on truthful panels: at the end of the run the site and the proxy are on the panel
      of the target's own row. */
  lemma GoodRunServesRow(env: Env, w: World, cfg: Config, parses: string -> bool, ts: seq<ProxyTarget>, i: nat, r: nat)
    requires Accepted(cfg.targets, parses) && i < |ts| && IsRowOf(cfg, ts[i], r) && Truthful(env)
    ensures var (w', reps) := SyncPrefix(env, w, cfg, ts, |ts|); var p := PanelAt(w', cfg.targets[r].url);
            reps[i].overallOk ==>
              ts[i].domain in p.sites && (ts[i].domain, env.proxyName(ts[i].domain)) in p.proxies
  {
    ChosenPanel(cfg, parses, ts[i], r);
    GoodRunServes(env, w, cfg, ts, i);
    hide SyncPrefix, PanelUrlOf, Truthful, Accepted;
  }
}
