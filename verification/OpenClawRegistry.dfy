/** The registry of OpenClaw gateways and the cluster objects behind it:
    internal/app_openclaw_store.go, internal/app_openclaw_k8s_names.go,
    internal/app_openclaw_k8s_delete.go, and the deploy and delete flows of
    internal/app_openclaw_handlers.go. */
module OpenClawRegistry {
  import opened Text
  import opened Options

  /** A registered gateway. The four object names are blank in registrations made before the
      objects were named after the Deployment. */
  datatype Instance = Instance(id: string, namespace: string, deployment: string, service: string,
                               pvc: string, secret: string, configMap: string, serviceAccount: string, other: string)

  datatype Kind = Pvc | Secret | ConfigMap | ServiceAccount

  datatype Object = Object(kind: Kind, namespace: string, name: string)

  // ---------------------------------------------------------------- names

  function PvcName(dep: string): string { "openclaw-home-" + Trim(dep) }
  function SecretName(dep: string): string { "openclaw-secrets-" + Trim(dep) }
  function ConfigMapName(dep: string): string { "openclaw-config-" + Trim(dep) }
  function AccountName(dep: string): string { "openclaw-" + Trim(dep) }

  const OLD_PVC := "openclaw-home-pvc"
  const OLD_SECRET := "openclaw-secrets"
  const OLD_CONFIG := "openclaw-config"
  const OLD_ACCOUNT := "openclaw"

  function OrElse(name: string, shared: string): string {
    if Trim(name) == "" then shared else Trim(name)
  }

  /** The name of an instance's object of each kind, as deletion resolves it. */
  function NameOf(x: Instance, k: Kind): string {
    match k
    case Pvc => OrElse(x.pvc, OLD_PVC)
    case Secret => OrElse(x.secret, OLD_SECRET)
    case ConfigMap => OrElse(x.configMap, OLD_CONFIG)
    case ServiceAccount => OrElse(x.serviceAccount, OLD_ACCOUNT)
  }

  function ObjectOf(x: Instance, k: Kind): Object {
    Object(k, Trim(x.namespace), NameOf(x, k))
  }

  function ObjectsOf(x: Instance): set<Object> {
    {ObjectOf(x, Secret), ObjectOf(x, ConfigMap), ObjectOf(x, Pvc), ObjectOf(x, ServiceAccount)}
  }

  // ---------------------------------------------------------------- the registry list

  /** strings.EqualFold on trimmed names, compared in lower case. */
  predicate SameName(a: string, b: string) {
    Lower(Trim(a)) == Lower(Trim(b))
  }

  predicate SamePlace(x: Instance, namespace: string, deployment: string) {
    SameName(x.namespace, namespace) && SameName(x.deployment, deployment)
  }

  predicate Taken(list: seq<Instance>, namespace: string, deployment: string) {
    exists i :: 0 <= i < |list| && SamePlace(list[i], namespace, deployment)
  }

  /** The first instance with this id. */
  function Lookup(list: seq<Instance>, id: string): Option<Instance> {
    if list == [] then None
    else if list[0].id == Trim(id) then Some(list[0])
    else Lookup(list[1..], id)
  }

  function Without(list: seq<Instance>, id: string): seq<Instance> {
    if list == [] then [] else
      var rest, last := Without(list[..|list| - 1], id), list[|list| - 1];
      if last.id == Trim(id) then rest else rest + [last]
  }

  predicate OtherInNamespace(list: seq<Instance>, exclude: string, namespace: string) {
    exists i :: 0 <= i < |list| && Trim(list[i].id) != Trim(exclude) && SameName(list[i].namespace, namespace)
  }

  /** The shared objects of an old registration are kept while another one is in its namespace. */
  predicate SkipsShared(x: Instance, list: seq<Instance>, id: string) {
    Trim(x.pvc) == "" && OtherInNamespace(list, id, x.namespace)
  }

  /** The change a patch makes: to fields that do not matter here, or, when the access preset is
      changed, also to a blank service account name. */
  datatype Patch = Patch(other: string, nameAccount: bool)

  function Patched(x: Instance, p: Patch): Instance {
    var y := x.(other := p.other);
    if p.nameAccount && Trim(y.serviceAccount) == "" then y.(serviceAccount := AccountName(x.deployment)) else y
  }

  function PatchFirst(list: seq<Instance>, id: string, p: Patch): seq<Instance> {
    if list == [] then []
    else if list[0].id == Trim(id) then [Patched(list[0], p)] + list[1..]
    else [list[0]] + PatchFirst(list[1..], id, p)
  }

  // ---------------------------------------------------------------- the flows

  /** The registry and the PVCs, Secrets, ConfigMaps and ServiceAccounts of the cluster. */
  datatype Platform = Platform(list: seq<Instance>, cluster: set<Object>)

  /** Which deletions the API server carries out. */
  type Deletes = Object -> bool

  function Removed(cluster: set<Object>, objects: set<Object>, works: Deletes): set<Object> {
    set o | o in cluster && !(o in objects && works(o))
  }

  predicate Deletable(x: Instance) {
    Trim(x.namespace) != "" && Trim(x.deployment) != "" && Trim(x.service) != ""
  }

  /** What deleting an instance removes. */
  function DeleteObjects(cluster: set<Object>, x: Instance, skip: bool, works: Deletes): set<Object> {
    if !Deletable(x) || skip then cluster else Removed(cluster, ObjectsOf(x), works)
  }

  function Delete(p: Platform, id: string, works: Deletes): Platform {
    match Lookup(p.list, Trim(id))
    case None => p
    case Some(x) =>
      Platform(Without(p.list, id), DeleteObjects(p.cluster, x, SkipsShared(x, p.list, Trim(id)), works))
  }

  /** ^[a-z0-9]([-a-z0-9]*[a-z0-9])?$, at most 63 characters */
  predicate ValidLabel(s: string) {
    && 1 <= |s| <= 63 && s[0] != '-' && s[|s| - 1] != '-'
    && forall i :: 0 <= i < |s| ==> 'a' <= s[i] <= 'z' || '0' <= s[i] <= '9' || s[i] == '-'
  }

  /** A deployment request, and how it fares: how many of its four objects get created, whether it
      gets as far as being registered, and the id it is given. */
  datatype Request = Request(namespace: string, deployment: string, service: string, other: string,
                             created: nat, registered: bool, id: string)

  function NewInstance(r: Request): Instance {
    Instance(r.id, Trim(r.namespace), Trim(r.deployment), Trim(r.service),
             PvcName(Trim(r.deployment)), SecretName(Trim(r.deployment)), ConfigMapName(Trim(r.deployment)),
             AccountName(Trim(r.deployment)), r.other)
  }

  /** The first n objects of a deployment, in the order they are created. */
  function FirstObjects(x: Instance, n: nat): set<Object> {
    (if n >= 1 then {ObjectOf(x, Pvc)} else {}) + (if n >= 2 then {ObjectOf(x, ConfigMap)} else {})
    + (if n >= 3 then {ObjectOf(x, Secret)} else {}) + (if n >= 4 then {ObjectOf(x, ServiceAccount)} else {})
  }

  predicate Acceptable(p: Platform, r: Request) {
    && !Taken(p.list, r.namespace, r.deployment)
    && Trim(r.namespace) != "" && ValidLabel(Trim(r.deployment)) && ValidLabel(Trim(r.service))
  }

  function Deploy(p: Platform, r: Request): Platform {
    if !Acceptable(p, r) then p
    else
      var x := NewInstance(r);
      if r.registered then Platform([x] + p.list, p.cluster + FirstObjects(x, 4))
      else p.(cluster := p.cluster + FirstObjects(x, r.created))
  }

  // ---------------------------------------------------------------- the code

  /** The platform's stored registry and its cluster connection. */
  class Server {
    var list: seq<Instance>
    var cluster: set<Object>

    function State(): Platform
      reads this
    {
      Platform(list, cluster)
    }

    method FindInstance(id: string) returns (r: Option<Instance>)
      ensures r == Lookup(list, id)
    {
      hide Trim;
      var key := Trim(id);
      for i := 0 to |list|
        invariant Lookup(list[i..], id) == Lookup(list, id)
      {
        if list[i].id == key {
          return Some(list[i]);
        }
      }
      r := None;
    }

    method RemoveInstance(id: string)
      modifies this`list
      ensures list == Without(old(list), id)
    {
      hide Trim;
      var key := Trim(id);
      var out: seq<Instance> := [];
      for i := 0 to |list|
        invariant list == old(list) && out == Without(list[..i], id)
      {
        assert list[..i + 1][..i] == list[..i];
        if list[i].id != key {
          out := out + [list[i]];
        }
      }
      assert list[..|list|] == list;
      list := out;
    }

    method PatchInstance(id: string, p: Patch) returns (ok: bool)
      modifies this`list
      ensures list == PatchFirst(old(list), id, p)
      ensures ok <==> Lookup(old(list), id).Some?
    {
      hide Trim, Patched;
      var key := Trim(id);
      for i := 0 to |list|
        invariant list == old(list)
        invariant PatchFirst(list, id, p) == list[..i] + PatchFirst(list[i..], id, p)
        invariant Lookup(list[i..], id) == Lookup(list, id)
      {
        if list[i].id == key {
          assert list[i..][1..] == list[i + 1..];
          assert list[i := Patched(list[i], p)] == list[..i] + ([Patched(list[i], p)] + list[i + 1..]);
          list := list[i := Patched(list[i], p)];
          return true;
        }
        assert list[i..] == [list[i]] + list[i + 1..];
        assert list[..i + 1] == list[..i] + [list[i]];
      }
      assert list[..|list|] + [] == list;
      ok := false;
    }

    method OtherSameNamespace(exclude: string, namespace: string) returns (r: bool)
      ensures r == OtherInNamespace(list, exclude, namespace)
    {
      hide Trim, SameName;
      for i := 0 to |list|
        invariant forall j :: 0 <= j < i ==> !(Trim(list[j].id) != Trim(exclude) && SameName(list[j].namespace, namespace))
      {
        if Trim(list[i].id) == Trim(exclude) {
          continue;
        }
        if SameName(list[i].namespace, namespace) {
          return true;
        }
      }
      r := false;
    }

    /** Deletes the four objects one after the other, collecting a warning for each refusal. */
    method DeleteResources(x: Instance, skip: bool, works: Deletes) returns (warnings: seq<Object>)
      modifies this`cluster
      ensures cluster == DeleteObjects(old(cluster), x, skip, works)
      ensures Deletable(x) && !skip ==> forall o :: o in ObjectsOf(x) ==> (o in warnings <==> !works(o))
    {
      warnings := [];
      if !Deletable(x) || skip {
        return;
      }
      hide ObjectOf, Deletable;
      var todo := [ObjectOf(x, Secret), ObjectOf(x, ConfigMap), ObjectOf(x, Pvc), ObjectOf(x, ServiceAccount)];
      for i := 0 to |todo|
        invariant cluster == set o | o in old(cluster) && !(o in todo[..i] && works(o))
        invariant forall o :: o in warnings <==> o in todo[..i] && !works(o)
      {
        if works(todo[i]) {
          cluster := cluster - {todo[i]};
        } else {
          warnings := warnings + [todo[i]];
        }
      }
      assert todo[..|todo|] == todo;
      assert forall o :: o in todo <==> o in ObjectsOf(x);
    }

    method HandleDelete(id: string, works: Deletes) returns (found: bool)
      modifies this
      ensures State() == Delete(old(State()), id, works)
      ensures found <==> Lookup(old(list), Trim(id)).Some?
    {
      hide Lookup, Without, DeleteObjects, OtherInNamespace;
      var x := FindInstance(Trim(id));
      if x.None? {
        return false;
      }
      var skip := false;
      if Trim(x.value.pvc) == "" {
        skip := OtherSameNamespace(Trim(id), x.value.namespace);
      }
      var warnings := DeleteResources(x.value, skip, works);
      RemoveInstance(id);
      found := true;
    }

    method HandleDeploy(r: Request) returns (ok: bool)
      modifies this
      ensures State() == Deploy(old(State()), r)
      ensures ok <==> Acceptable(old(State()), r) && r.registered
    {
      hide Trim, SamePlace, ValidLabel, NewInstance, FirstObjects;
      ok := false;
      for i := 0 to |list|
        invariant forall j :: 0 <= j < i ==> !SamePlace(list[j], r.namespace, r.deployment)
      {
        if SamePlace(list[i], r.namespace, r.deployment) {
          return;
        }
      }
      if Trim(r.namespace) == "" || !ValidLabel(Trim(r.deployment)) || !ValidLabel(Trim(r.service)) {
        return;
      }
      var x := NewInstance(r);
      if !r.registered {
        cluster := cluster + FirstObjects(x, r.created);
        return;
      }
      cluster := cluster + FirstObjects(x, 4);
      list := [x] + list;
      ok := true;
    }
  }
}
