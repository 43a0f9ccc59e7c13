/** What any sequence of deployments, patches and deletions keeps:
    internal/app_openclaw_handlers.go, lines 258-263 and 593-645, with the registry and deletion
    code of internal/app_openclaw_store.go and internal/app_openclaw_k8s_delete.go. */
module OpenClawRuns {
  import opened Text
  import opened OpenClawRegistry

  // ---------------------------------------------------------------- what registrations look like

  /** A registration whose four objects are named after its Deployment. */
  predicate IsNew(x: Instance) {
    && ValidLabel(x.deployment)
    && x.pvc == PvcName(x.deployment) && x.secret == SecretName(x.deployment)
    && x.configMap == ConfigMapName(x.deployment) && x.serviceAccount == AccountName(x.deployment)
  }

  /** An old registration, which falls back to the shared names; its account may have been named
      later. */
  predicate IsOld(x: Instance) {
    && Trim(x.pvc) == "" && Trim(x.secret) == "" && Trim(x.configMap) == ""
    && (Trim(x.serviceAccount) == "" || x.serviceAccount == AccountName(x.deployment))
  }

  predicate Registered(x: Instance) {
    (IsNew(x) || IsOld(x)) && Trim(x.id) == x.id
  }

  predicate Apart(x: Instance, y: Instance) {
    x.id != y.id && !SamePlace(x, y.namespace, y.deployment)
  }

  /** The registry invariant: well-formed entries, distinct ids, distinct (namespace, Deployment). */
  predicate Inv(list: seq<Instance>) {
    && (forall i :: 0 <= i < |list| ==> Registered(list[i]))
    && (forall i, j :: 0 <= i < j < |list| ==> Apart(list[i], list[j]))
  }

  lemma LabelIsTrimmed(s: string)
    requires ValidLabel(s)
    ensures Trim(s) == s
  {
    assert !IsSpace(s[0]) && !IsSpace(s[|s| - 1]);
  }

  /** The four names deletion resolves for a new registration. */
  lemma NewNames(x: Instance)
    requires IsNew(x)
    ensures NameOf(x, Pvc) == "openclaw-home-" + x.deployment
    ensures NameOf(x, Secret) == "openclaw-secrets-" + x.deployment
    ensures NameOf(x, ConfigMap) == "openclaw-config-" + x.deployment
    ensures NameOf(x, ServiceAccount) == "openclaw-" + x.deployment
    ensures Trim(x.pvc) != ""
  {
    LabelIsTrimmed(x.deployment);
    TrimIsTrimmed(x.deployment);
    var d := x.deployment;
    PrefixedIsTrimmed("openclaw-home-", d);
    PrefixedIsTrimmed("openclaw-secrets-", d);
    PrefixedIsTrimmed("openclaw-config-", d);
    PrefixedIsTrimmed("openclaw-", d);
    hide Trim, ValidLabel, Trimmed;
  }

  lemma OldNames(x: Instance)
    requires IsOld(x)
    ensures NameOf(x, Pvc) == OLD_PVC && NameOf(x, Secret) == OLD_SECRET && NameOf(x, ConfigMap) == OLD_CONFIG
    ensures NameOf(x, ServiceAccount) == OLD_ACCOUNT || NameOf(x, ServiceAccount) == "openclaw-" + Trim(x.deployment)
  {
    TrimIsTrimmed(x.deployment);
    PrefixedIsTrimmed("openclaw-", Trim(x.deployment));
    hide Trim, Trimmed;
  }

  // ---------------------------------------------------------------- deletion and the other entries

  /** x's PVC is the one old registrations of y's namespace share. */
  predicate SharesPvc(x: Instance, y: Instance) {
    IsNew(x) && x.deployment == "pvc" && IsOld(y) && Trim(x.namespace) == Trim(y.namespace)
  }

  lemma SameTrimmedName(a: string, b: string)
    requires Trim(a) == Trim(b)
    ensures SameName(a, b)
  {
  }

  lemma PrefixCancels(prefix: string, a: string, b: string)
    ensures prefix + a == prefix + b <==> a == b
  {
    assert (prefix + a)[|prefix|..] == a && (prefix + b)[|prefix|..] == b;
  }

  /** Names of a new registration against the shared names and against those of Deployment e. */
  lemma NamesDiffer(d: string, e: string)
    requires d != e
    ensures "openclaw-home-" + d != "openclaw-home-" + e && "openclaw-secrets-" + d != "openclaw-secrets-" + e
    ensures "openclaw-config-" + d != "openclaw-config-" + e && "openclaw-" + d != "openclaw-" + e
  {
    PrefixCancels("openclaw-home-", d, e);
    PrefixCancels("openclaw-secrets-", d, e);
    PrefixCancels("openclaw-config-", d, e);
    PrefixCancels("openclaw-", d, e);
  }

  lemma SharedNamesDiffer(d: string)
    ensures "openclaw-home-" + d == OLD_PVC <==> d == "pvc"
    ensures "openclaw-secrets-" + d != OLD_SECRET && "openclaw-config-" + d != OLD_CONFIG && "openclaw-" + d != OLD_ACCOUNT
  {
    assert OLD_PVC == "openclaw-home-" + "pvc";
    PrefixCancels("openclaw-home-", d, "pvc");
    assert |OLD_SECRET| < |"openclaw-secrets-" + d| && |OLD_CONFIG| < |"openclaw-config-" + d|;
    assert |OLD_ACCOUNT| < |"openclaw-" + d|;
  }

  lemma DeploymentsDiffer(x: Instance, y: Instance)
    requires ValidLabel(x.deployment) && Apart(x, y) && Trim(x.namespace) == Trim(y.namespace)
    ensures x.deployment != Trim(y.deployment)
  {
    LabelIsTrimmed(x.deployment);
    hide Trim, ValidLabel;
    SameTrimmedName(x.namespace, y.namespace);
    if x.deployment == Trim(y.deployment) {
      SameTrimmedName(x.deployment, y.deployment);
    }
  }

  /** Two separate registrations of one namespace, the first of them new, have an object in common
      only as SharesPvc says. */
  lemma CommonObject(x: Instance, y: Instance, k: Kind)
    requires IsNew(x) && Registered(y) && Apart(x, y) && Trim(x.namespace) == Trim(y.namespace)
    ensures NameOf(x, k) == NameOf(y, k) <==> k == Pvc && SharesPvc(x, y)
  {
    DeploymentsDiffer(x, y);
    NewNames(x);
    NamesDiffer(x.deployment, Trim(y.deployment));
    SharedNamesDiffer(x.deployment);
    if IsNew(y) {
      LabelIsTrimmed(y.deployment);
      NewNames(y);
      assert !IsOld(y);
    } else {
      OldNames(y);
    }
    hide Trim, ValidLabel, NameOf, IsNew, IsOld;
    match k { case Pvc => case Secret => case ConfigMap => case ServiceAccount => }
  }

  lemma ObjectIn(x: Instance, y: Instance, k: Kind)
    ensures ObjectOf(y, k) in ObjectsOf(x) <==> ObjectOf(y, k) == ObjectOf(x, k)
  {
    hide Trim, NameOf;
    match k { case Pvc => case Secret => case ConfigMap => case ServiceAccount => }
  }

  /** Deleting x removes an object of another registration y only if y is an old one, x is the
      deployment named "pvc" beside it, and the object is the PVC. */
  lemma DeletionHits(list: seq<Instance>, i: nat, j: nat, k: Kind)
    requires Inv(list) && i < |list| && j < |list| && i != j
    requires !SkipsShared(list[i], list, list[i].id)
    ensures ObjectOf(list[j], k) in ObjectsOf(list[i]) <==> k == Pvc && SharesPvc(list[i], list[j])
  {
    var x, y := list[i], list[j];
    assert Apart(x, y) by {
      if i > j {
        assert Apart(list[j], list[i]);
      }
    }
    hide Trim, ValidLabel, NameOf, ObjectsOf;
    ObjectIn(x, y, k);
    if Trim(x.namespace) == Trim(y.namespace) {
      SameTrimmedName(y.namespace, x.namespace);
      assert Registered(x) && Registered(y);
      if IsNew(x) {
        CommonObject(x, y, k);
      }
    }
  }

  // ---------------------------------------------------------------- the invariant over runs

  datatype Op = DeployOp(r: Request) | PatchOp(id: string, patch: Patch) | DeleteOp(id: string, works: Deletes)

  function Do(p: Platform, op: Op): Platform {
    match op
    case DeployOp(r) => Deploy(p, r)
    case PatchOp(id, patch) => p.(list := PatchFirst(p.list, id, patch))
    case DeleteOp(id, works) => Delete(p, id, works)
  }

  /** New ids are fresh. */
  predicate LegalOp(p: Platform, op: Op) {
    op.DeployOp? ==> Trim(op.r.id) == op.r.id && forall i :: 0 <= i < |p.list| ==> p.list[i].id != op.r.id
  }

  function DoAll(p: Platform, ops: seq<Op>): Platform {
    if ops == [] then p else Do(DoAll(p, ops[..|ops| - 1]), ops[|ops| - 1])
  }

  predicate LegalRun(p: Platform, ops: seq<Op>) {
    ops == [] || (LegalRun(p, ops[..|ops| - 1]) && LegalOp(DoAll(p, ops[..|ops| - 1]), ops[|ops| - 1]))
  }

  lemma NewInstanceIsNew(r: Request)
    requires ValidLabel(Trim(r.deployment))
    ensures IsNew(NewInstance(r))
  {
  }

  lemma FreeIsApart(r: Request, y: Instance)
    requires !SamePlace(y, r.namespace, r.deployment) && y.id != r.id
    ensures Apart(NewInstance(r), y)
  {
    TrimIdempotent(r.namespace);
    TrimIdempotent(r.deployment);
    hide Trim, Lower;
  }

  lemma {:induction false} ConsKeepsInv(x: Instance, list: seq<Instance>)
    requires Inv(list) && Registered(x) && forall i :: 0 <= i < |list| ==> Apart(x, list[i])
    ensures Inv([x] + list)
  {
    hide Apart, Registered;
    var all := [x] + list;
    forall i, j | 0 <= i < j < |all| ensures Apart(all[i], all[j]) {
      assert all[j] == list[j - 1];
      if i > 0 {
        assert all[i] == list[i - 1];
      }
    }
  }

  lemma DeployKeepsInv(p: Platform, r: Request)
    requires Inv(p.list) && LegalOp(p, DeployOp(r))
    ensures Inv(Deploy(p, r).list)
  {
    if Acceptable(p, r) && r.registered {
      NewInstanceIsNew(r);
      forall i | 0 <= i < |p.list| ensures Apart(NewInstance(r), p.list[i]) {
        FreeIsApart(r, p.list[i]);
      }
      hide Trim, ValidLabel, IsNew, Apart, SamePlace;
      ConsKeepsInv(NewInstance(r), p.list);
    }
  }

  lemma PatchedIsRegistered(x: Instance, patch: Patch)
    requires Registered(x)
    ensures var y := Patched(x, patch);
            Registered(y) && y.id == x.id && y.namespace == x.namespace && y.deployment == x.deployment
  {
    if IsNew(x) {
      NewNames(x);
    }
  }

  lemma {:induction false} PatchFirstPointwise(list: seq<Instance>, id: string, patch: Patch)
    ensures var r := PatchFirst(list, id, patch);
            |r| == |list| && forall i :: 0 <= i < |list| ==> r[i] == list[i] || r[i] == Patched(list[i], patch)
  {
    hide Trim, Patched;
    if list != [] && list[0].id != Trim(id) {
      PatchFirstPointwise(list[1..], id, patch);
    }
  }

  lemma PatchKeepsInv(list: seq<Instance>, id: string, patch: Patch)
    requires Inv(list)
    ensures Inv(PatchFirst(list, id, patch))
  {
    PatchFirstPointwise(list, id, patch);
    var r := PatchFirst(list, id, patch);
    hide PatchFirst, Patched, Trim, IsNew, IsOld;
    forall i | 0 <= i < |list|
      ensures Registered(r[i]) && r[i].id == list[i].id && r[i].namespace == list[i].namespace
              && r[i].deployment == list[i].deployment
    {
      PatchedIsRegistered(list[i], patch);
    }
    forall i, j | 0 <= i < j < |list| ensures Apart(r[i], r[j]) {
      assert Apart(list[i], list[j]);
    }
  }

  /** Removing keeps the order of, and only of, the entries with another id. */
  lemma {:induction false} WithoutKeeps(list: seq<Instance>, id: string)
    requires Inv(list)
    ensures Inv(Without(list, id))
    ensures forall y :: y in Without(list, id) <==> y in list && y.id != Trim(id)
  {
    hide Trim, Inv;
    if list == [] {
      EmptyInv();
    } else {
      var init, last := list[..|list| - 1], list[|list| - 1];
      InitInv(list);
      WithoutKeeps(init, id);
      SnocInv(list, Without(init, id));
      assert list == init + [last];
    }
  }

  lemma EmptyInv()
    ensures Inv([])
  {
  }

  lemma InitInv(list: seq<Instance>)
    requires Inv(list) && list != []
    ensures Inv(list[..|list| - 1])
  {
    hide Registered, Apart;
  }

  /** Some of the earlier entries, and the last. */
  lemma SnocInv(list: seq<Instance>, rest: seq<Instance>)
    requires Inv(list) && list != [] && Inv(rest) && forall y :: y in rest ==> y in list[..|list| - 1]
    ensures Inv(rest + [list[|list| - 1]])
  {
    hide Registered, Apart;
    var n := |list| - 1;
    forall i | 0 <= i < |rest| ensures Apart(rest[i], list[n]) {
      assert rest[i] in rest;
      var j :| 0 <= j < n && list[..n][j] == rest[i];
      assert Apart(list[j], list[n]);
    }
  }

  lemma OpKeepsInv(p: Platform, op: Op)
    requires Inv(p.list) && LegalOp(p, op)
    ensures Inv(Do(p, op).list)
  {
    match op {
      case DeployOp(r) => DeployKeepsInv(p, r);
      case PatchOp(id, patch) => PatchKeepsInv(p.list, id, patch);
      case DeleteOp(id, works) => WithoutKeeps(p.list, id);
    }
  }

  /** Any run of deployments, patches and deletions keeps ids and (namespace, Deployment) pairs
      distinct, up to case. */
  lemma {:induction false} RunKeepsInv(p: Platform, ops: seq<Op>)
    requires Inv(p.list) && LegalRun(p, ops)
    ensures Inv(DoAll(p, ops).list)
  {
    if ops != [] {
      RunKeepsInv(p, ops[..|ops| - 1]);
      OpKeepsInv(DoAll(p, ops[..|ops| - 1]), ops[|ops| - 1]);
    }
  }

  lemma {:induction false} LookupIsIn(list: seq<Instance>, id: string)
    requires Lookup(list, id).Some?
    ensures exists i :: 0 <= i < |list| && list[i] == Lookup(list, id).value && list[i].id == Trim(id)
  {
    hide Trim;
    if list[0].id != Trim(id) {
      LookupIsIn(list[1..], id);
      var i :| 0 <= i < |list[1..]| && list[1..][i] == Lookup(list[1..], id).value && list[1..][i].id == Trim(id);
      assert list[i + 1] == list[1..][i];
    }
  }

  /** After any run, deleting an instance x unregisters x and nothing else; it removes an object of a
      remaining instance y exactly when that is the PVC the two share, x being a deployment named
      "pvc" beside the old registration y; and it removes x's own objects unless they are shared. */
  lemma DeleteSparesOthers(p0: Platform, ops: seq<Op>, id: string, works: Deletes, y: Instance, k: Kind)
    requires Inv(p0.list) && LegalRun(p0, ops)
    requires var p := DoAll(p0, ops); Lookup(p.list, Trim(id)).Some? && y in Delete(p, id, works).list
    requires ObjectOf(y, k) in DoAll(p0, ops).cluster
    ensures var p := DoAll(p0, ops); var x := Lookup(p.list, Trim(id)).value; var after := Delete(p, id, works);
            && (forall z :: z in after.list <==> z in p.list && z.id != Trim(id))
            && (ObjectOf(y, k) !in after.cluster <==>
                  Deletable(x) && k == Pvc && SharesPvc(x, y) && works(ObjectOf(y, k)))
            && (Deletable(x) && !SkipsShared(x, p.list, Trim(id)) ==>
                  forall o :: o in ObjectsOf(x) && works(o) ==> o !in after.cluster)
  {
    var p := DoAll(p0, ops);
    RunKeepsInv(p0, ops);
    WithoutKeeps(p.list, id);
    LookupIsIn(p.list, Trim(id));
    TrimIdempotent(id);
    hide DoAll, Inv, Without, Lookup, Trim, ObjectOf, ObjectsOf, Deletable;
    var x := Lookup(p.list, Trim(id)).value;
    var i :| 0 <= i < |p.list| && p.list[i] == x && p.list[i].id == Trim(Trim(id));
    assert y in p.list;
    var j :| 0 <= j < |p.list| && p.list[j] == y;
    if SkipsShared(x, p.list, x.id) {
      if IsNew(x) {
        NewNames(x);
      }
    } else {
      DeletionHits(p.list, i, j, k);
    }
  }
}
