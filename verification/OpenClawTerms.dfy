/** What deploying, patching and deleting an OpenClaw gateway comes to, in names and places:
    internal/app_openclaw_k8s_names.go, internal/app_openclaw_k8s_delete.go,
    internal/app_openclaw_store.go and internal/app_openclaw_handlers.go. */
module OpenClawTerms {
  import opened Text
  import opened Options
  import opened OpenClawRegistry

  // ---------------------------------------------------------------- the registry

  /** Row i is the first one with this id. */
  predicate IsFirst(list: seq<Instance>, id: string, i: nat) {
    i < |list| && list[i].id == Trim(id) && forall j :: 0 <= j < i ==> list[j].id != Trim(id)
  }

  lemma {:induction false} LookupMeans(list: seq<Instance>, id: string, i: nat)
    ensures IsFirst(list, id, i) ==> Lookup(list, id) == Some(list[i])
    ensures Lookup(list, id).None? <==> forall j :: 0 <= j < |list| ==> list[j].id != Trim(id)
  {
    hide Trim;
    if list != [] {
      LookupMeans(list[1..], id, if i == 0 then 0 else i - 1);
      assert forall j :: 1 <= j < |list| ==> list[j] == list[1..][j - 1];
      assert forall j :: 0 <= j < |list[1..]| ==> list[1..][j] == list[j + 1];
    }
  }

  lemma PatchedMeans(x: Instance, p: Patch)
    ensures var names := p.nameAccount && Trim(x.serviceAccount) == "";
            Patched(x, p) == x.(other := p.other,
                                serviceAccount := if names then "openclaw-" + Trim(x.deployment) else x.serviceAccount)
  {
    hide Trim;
  }

  lemma {:induction false} PatchFirstAt(list: seq<Instance>, id: string, p: Patch, i: nat)
    requires IsFirst(list, id, i)
    ensures PatchFirst(list, id, p) == list[i := Patched(list[i], p)]
  {
    hide Trim, Patched;
    if i > 0 {
      var rest := list[1..];
      assert forall j :: 0 <= j < |rest| ==> rest[j] == list[j + 1];
      PatchFirstAt(rest, id, p, i - 1);
      hide PatchFirst;
      assert [list[0]] + rest[i - 1 := Patched(list[i], p)] == list[i := Patched(list[i], p)];
    }
  }

  lemma {:induction false} PatchFirstNone(list: seq<Instance>, id: string, p: Patch)
    requires forall j :: 0 <= j < |list| ==> list[j].id != Trim(id)
    ensures PatchFirst(list, id, p) == list
  {
    hide Trim, Patched;
    if list != [] {
      assert forall j :: 0 <= j < |list[1..]| ==> list[1..][j] == list[j + 1];
      PatchFirstNone(list[1..], id, p);
    }
  }

  /** A patch changes the first entry with the id and no other: the account is named only if it was
      blank. Without such an entry nothing is changed. */
  lemma PatchMeans(list: seq<Instance>, id: string, p: Patch, i: nat)
    ensures IsFirst(list, id, i) ==>
              var x := list[i]; var names := p.nameAccount && Trim(x.serviceAccount) == "";
              PatchFirst(list, id, p)
              == list[i := x.(other := p.other,
                              serviceAccount := if names then "openclaw-" + Trim(x.deployment) else x.serviceAccount)]
    ensures (forall j :: 0 <= j < |list| ==> list[j].id != Trim(id)) ==> PatchFirst(list, id, p) == list
  {
    if IsFirst(list, id, i) {
      PatchFirstAt(list, id, p, i);
      PatchedMeans(list[i], p);
    }
    if forall j :: 0 <= j < |list| ==> list[j].id != Trim(id) {
      PatchFirstNone(list, id, p);
    }
    hide Trim, Patched, PatchFirst;
  }

  /** Unregistering keeps the entries with another id, in their order. */
  lemma {:induction false} WithoutInOrder(list: seq<Instance>, id: string) returns (at: seq<nat>)
    ensures |at| == |Without(list, id)|
    ensures forall i, j :: 0 <= i < j < |at| ==> at[i] < at[j]
    ensures forall k: nat :: k in at <==> k < |list| && list[k].id != Trim(id)
    ensures forall i :: 0 <= i < |at| ==> at[i] < |list| && Without(list, id)[i] == list[at[i]]
  {
    hide Trim;
    at := [];
    if list != [] {
      var n := |list| - 1;
      var before := WithoutInOrder(list[..n], id);
      WithoutLast(list, id);
      hide Without;
      at := before + if list[n].id != Trim(id) then [n] else [];
    }
  }

  lemma WithoutLast(list: seq<Instance>, id: string)
    requires list != []
    ensures var n := |list| - 1;
            Without(list, id) == Without(list[..n], id) + if list[n].id != Trim(id) then [list[n]] else []
  {
  }

  // ---------------------------------------------------------------- deployment

  /** A DNS label: 1 to 63 ASCII small letters, digits and inner hyphens. */
  predicate IsLabel(s: string) {
    && 0 < |s| < 64
    && (forall i :: 0 <= i < |s| ==> 97 <= s[i] as int <= 122 || 48 <= s[i] as int <= 57 || s[i] == '-')
    && s[0] != '-' && s[|s| - 1] != '-'
  }

  lemma LabelMeans(s: string)
    ensures ValidLabel(s) <==> IsLabel(s)
  {
  }

  /** A request is taken up unless another gateway has its namespace and Deployment up to case, its
      namespace is blank, or its Deployment or Service is no label. */
  predicate TakenUp(list: seq<Instance>, r: Request) {
    && (forall i :: 0 <= i < |list| ==>
          || Lower(Trim(list[i].namespace)) != Lower(Trim(r.namespace))
          || Lower(Trim(list[i].deployment)) != Lower(Trim(r.deployment)))
    && Trim(r.namespace) != "" && IsLabel(Trim(r.deployment)) && IsLabel(Trim(r.service))
  }

  /** The names of the four objects of a deployment, in the order they are created. */
  function DeployedNames(r: Request): seq<Object> {
    var ns, d := Trim(r.namespace), Trim(r.deployment);
    [Object(Pvc, ns, "openclaw-home-" + d), Object(ConfigMap, ns, "openclaw-config-" + d),
     Object(Secret, ns, "openclaw-secrets-" + d), Object(ServiceAccount, ns, "openclaw-" + d)]
  }

  lemma TakenUpMeans(p: Platform, r: Request)
    ensures Acceptable(p, r) <==> TakenUp(p.list, r)
  {
    LabelMeans(Trim(r.deployment));
    LabelMeans(Trim(r.service));
    hide Trim, Lower, ValidLabel, IsLabel;
  }

  lemma NewNamesAre(r: Request)
    ensures var d := Trim(r.deployment); var x := NewInstance(r);
            && NameOf(x, Pvc) == "openclaw-home-" + d && NameOf(x, ConfigMap) == "openclaw-config-" + d
            && NameOf(x, Secret) == "openclaw-secrets-" + d && NameOf(x, ServiceAccount) == "openclaw-" + d
            && x == Instance(r.id, Trim(r.namespace), d, Trim(r.service), "openclaw-home-" + d, "openclaw-secrets-" + d,
                             "openclaw-config-" + d, "openclaw-" + d, r.other)
  {
    var d := Trim(r.deployment);
    TrimIsTrimmed(r.deployment);
    TrimIdempotent(r.deployment);
    PrefixedIsTrimmed("openclaw-home-", d);
    PrefixedIsTrimmed("openclaw-config-", d);
    PrefixedIsTrimmed("openclaw-secrets-", d);
    PrefixedIsTrimmed("openclaw-", d);
    hide Trim, Trimmed;
  }

  /** A deployment that is registered puts its entry, with the four names, first in the registry; one
      that gives up on the way leaves the first r.created objects behind. */
  lemma DeployMeans(p: Platform, r: Request)
    ensures var p' := Deploy(p, r); var d := Trim(r.deployment); var names := DeployedNames(r);
            var n := if r.registered || r.created > 4 then 4 else r.created;
            && (!TakenUp(p.list, r) ==> p' == p)
            && (TakenUp(p.list, r) ==> forall o :: o in p'.cluster <==> o in p.cluster || o in names[..n])
            && (TakenUp(p.list, r) && !r.registered ==> p'.list == p.list)
            && (TakenUp(p.list, r) && r.registered ==>
                  p'.list == [Instance(r.id, Trim(r.namespace), d, Trim(r.service), "openclaw-home-" + d,
                                       "openclaw-secrets-" + d, "openclaw-config-" + d, "openclaw-" + d, r.other)] + p.list)
  {
    TakenUpMeans(p, r);
    NewNamesAre(r);
    TrimIdempotent(r.namespace);
    FirstAre(r, r.created);
    FirstAre(r, 4);
    hide Trim, TakenUp, Acceptable, NewInstance, DeployedNames, FirstObjects;
  }

  lemma FirstAre(r: Request, n: nat)
    ensures forall o :: o in FirstObjects(NewInstance(r), n) <==> o in DeployedNames(r)[..if n > 4 then 4 else n]
  {
    NewNamesAre(r);
    TrimIdempotent(r.namespace);
    hide Trim, NewInstance, NameOf;
    var names := DeployedNames(r);
    assert names[..0] == [] && names[..1] == [names[0]] && names[..2] == [names[0], names[1]];
    assert names[..3] == [names[0], names[1], names[2]] && names[..4] == names;
  }

  // ---------------------------------------------------------------- deletion

  /** The four objects a deletion goes for, by name; a blank name stands for the shared one. */
  function NamedObjects(x: Instance): set<Object> {
    var ns := Trim(x.namespace);
    {Object(Pvc, ns, if Trim(x.pvc) == "" then "openclaw-home-pvc" else Trim(x.pvc)),
     Object(Secret, ns, if Trim(x.secret) == "" then "openclaw-secrets" else Trim(x.secret)),
     Object(ConfigMap, ns, if Trim(x.configMap) == "" then "openclaw-config" else Trim(x.configMap)),
     Object(ServiceAccount, ns, if Trim(x.serviceAccount) == "" then "openclaw" else Trim(x.serviceAccount))}
  }

  /** The objects are spared: the entry names no volume claim and an entry with another id is in its
      namespace, or the entry lacks its namespace, Deployment or Service. */
  predicate Spared(list: seq<Instance>, x: Instance, id: string) {
    || (Trim(x.pvc) == ""
        && exists i :: 0 <= i < |list| && Trim(list[i].id) != Trim(id)
                       && Lower(Trim(list[i].namespace)) == Lower(Trim(x.namespace)))
    || Trim(x.namespace) == "" || Trim(x.deployment) == "" || Trim(x.service) == ""
  }

  lemma ObjectsAre(x: Instance)
    ensures ObjectsOf(x) == NamedObjects(x)
  {
    hide Trim;
  }

  lemma SparedMeans(list: seq<Instance>, x: Instance, id: string)
    ensures SkipsShared(x, list, Trim(id)) || !Deletable(x) <==> Spared(list, x, id)
  {
    TrimIdempotent(id);
    hide Trim, Lower;
  }

  /** Deleting the entry found first takes the objects it names from the cluster, as far as the API
      server carries that out, unless they are spared; nothing else leaves the cluster. An unknown id
      changes nothing. */
  lemma DeleteMeans(p: Platform, id: string, works: Deletes, i: nat)
    ensures IsFirst(p.list, id, i) ==>
              forall o :: o in Delete(p, id, works).cluster <==>
                o in p.cluster && (o in NamedObjects(p.list[i]) && works(o) ==> Spared(p.list, p.list[i], id))
    ensures (forall j :: 0 <= j < |p.list| ==> p.list[j].id != Trim(id)) ==> Delete(p, id, works) == p
  {
    TrimIdempotent(id);
    LookupMeans(p.list, Trim(id), i);
    if IsFirst(p.list, id, i) {
      ObjectsAre(p.list[i]);
      SparedMeans(p.list, p.list[i], id);
    }
    hide Trim, Lookup, Without, Spared, SkipsShared, Deletable, ObjectsOf, NamedObjects;
  }
}
