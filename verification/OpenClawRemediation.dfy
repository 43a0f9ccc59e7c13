/** The built-in remediations of openclaw.json together: internal/app_openclaw_files.go, lines
    54-165 and 168-190. */
module OpenClawRemediation {
  import opened JsonPaths
  import opened OllamaWindows
  import opened OpenClawConfig

  datatype Patch = Origins | Chat | Windows

  function Patched(root: Fields, p: Patch): Fields {
    match p
    case Origins => WithOrigins(root)
    case Chat => WithChat(root)
    case Windows => WithWindows(root)
  }

  /** What the patch leaves nothing to do about. */
  ghost predicate Settled(root: Fields, p: Patch) {
    match p
    case Origins => HasOrigins(root)
    case Chat => HasChat(root)
    case Windows => !AnyLow(root)
  }

  function PatchedAll(root: Fields, patches: seq<Patch>): Fields
    decreases |patches|
  {
    if patches == [] then root else PatchedAll(Patched(root, patches[0]), patches[1..])
  }

  /** The leaves a patch may write. */
  function Targets(p: Patch): set<seq<string>> {
    match p
    case Origins => {ORIGINS, UI_ENABLED}
    case Chat => {CHAT_ENABLED}
    case Windows => {PROVIDERS}
  }

  // ---------------------------------------------------------------- the run

  method PatchWindows(config: Config) returns (changed: bool)
    modifies config
    ensures config.root == WithWindows(old(config.root))
    ensures changed == (config.root != old(config.root))
  {
    hide RaisedProviders, Put;
    var root := config.root;
    var found := Get(root, PROVIDERS);
    if found.None? || !found.value.Obj? {
      return false;
    }
    var providers;
    providers, changed := RaiseProviders(found.value.fields);
    config.root := Put(root, PROVIDERS, Obj(providers));
    GetPut(root, PROVIDERS, Obj(providers));
    PutGet(root, PROVIDERS, found.value);
  }

  method ApplyBuiltInRemediations(config: Config) returns (steps: seq<Patch>)
    modifies config
    ensures config.root == PatchedAll(old(config.root), [Origins, Chat, Windows])
    ensures forall p :: p in steps <==> !Settled(old(config.root), p)
    ensures steps == [] <==> config.root == old(config.root)
  {
    hide Settled, WithOrigins, WithChat, WithWindows;
    ghost var was := config.root;
    steps := [];
    var changed := config.PatchAllowedOriginsIfEmpty();
    if changed {
      steps := steps + [Origins];
    }
    changed := config.PatchChatCompletionsIfDisabled();
    if changed {
      steps := steps + [Chat];
    }
    changed := PatchWindows(config);
    if changed {
      steps := steps + [Windows];
    }
    RunOf(was);
    RunReports(was);
    forall p ensures p in steps <==> !Settled(was, p) {
      match p {
        case Origins =>
        case Chat =>
        case Windows =>
      }
    }
  }

  lemma RunOf(root: Fields)
    ensures PatchedAll(root, [Origins, Chat, Windows]) == WithWindows(WithChat(WithOrigins(root)))
  {
    assert [Origins, Chat, Windows][1..] == [Chat, Windows] && [Chat, Windows][1..] == [Windows];
    assert [Windows][1..] == [];
    assert PatchedAll(WithWindows(WithChat(WithOrigins(root))), []) == WithWindows(WithChat(WithOrigins(root)));
    hide WithOrigins, WithChat, WithWindows;
    assert PatchedAll(WithChat(WithOrigins(root)), [Windows]) == WithWindows(WithChat(WithOrigins(root)));
  }

  /** In a run each patch acts just when the document needed it at the start. */
  lemma RunReports(root: Fields)
    ensures WithOrigins(root) != root <==> !Settled(root, Origins)
    ensures WithChat(WithOrigins(root)) != WithOrigins(root) <==> !Settled(root, Chat)
    ensures WithWindows(WithChat(WithOrigins(root))) != WithChat(WithOrigins(root)) <==> !Settled(root, Windows)
    ensures WithWindows(WithChat(WithOrigins(root))) == root <==> forall p :: Settled(root, p)
  {
    var r1, r2 := WithOrigins(root), WithChat(WithOrigins(root));
    PatchSettles(root, Origins);
    PatchSettles(r1, Chat);
    PatchSettles(r2, Windows);
    SettledElsewhere(root, Origins, Chat);
    SettledElsewhere(root, Origins, Windows);
    SettledElsewhere(r1, Chat, Origins);
    SettledElsewhere(r1, Chat, Windows);
    SettledElsewhere(r2, Windows, Origins);
    SettledElsewhere(r2, Windows, Chat);
    hide Settled, WithOrigins, WithChat, WithWindows;
  }

  // ---------------------------------------------------------------- laws

  /** A patch leaves its own matter settled, and changes the document just when it was not. */
  lemma PatchSettles(root: Fields, p: Patch)
    ensures Settled(Patched(root, p), p)
    ensures Patched(root, p) == root <==> Settled(root, p)
  {
    match p {
      case Origins => OriginsChange(root);
      case Chat => GetPut(root, CHAT_ENABLED, Bool(true));
      case Windows => WindowsChange(root);
    }
  }

  lemma TargetsApart(p: Patch, q: Patch, path: Path, other: Path)
    requires p != q && path in Targets(p) && other in Targets(q)
    ensures Apart(path, other)
  {
    PathsApart();
    ApartSym(ORIGINS, UI_ENABLED);
    ApartSym(ORIGINS, CHAT_ENABLED);
    ApartSym(UI_ENABLED, CHAT_ENABLED);
  }

  /** Each patch is idempotent. */
  lemma PatchTwice(root: Fields, p: Patch)
    ensures Patched(Patched(root, p), p) == Patched(root, p)
  {
    PatchSettles(root, p);
    PatchSettles(Patched(root, p), p);
  }

  /** What a patch leaves alone: every path that neither leads to nor through one of its targets. */
  lemma PatchFrame(root: Fields, p: Patch, other: Path)
    requires forall target :: target in Targets(p) ==> Apart(target, other)
    ensures Get(Patched(root, p), other) == Get(root, other)
  {
    match p {
      case Origins => OriginsFrame(root, other);
      case Chat => ChatFrame(root, other);
      case Windows => WindowsFrame(root, other);
    }
  }

  lemma SettledElsewhere(root: Fields, p: Patch, q: Patch)
    requires p != q
    ensures Settled(Patched(root, p), q) == Settled(root, q)
  {
    var other: Path := match q case Origins => ORIGINS case Chat => CHAT_ENABLED case Windows => PROVIDERS;
    forall target | target in Targets(p) ensures Apart(target, other) {
      TargetsApart(p, q, target, other);
    }
    PatchFrame(root, p, other);
  }

  /** Any two patches commute. */
  lemma PatchesCommute(root: Fields, p: Patch, q: Patch)
    ensures Patched(Patched(root, p), q) == Patched(Patched(root, q), p)
  {
    if p == Windows && q != Windows {
      WindowsLast(root, q);
    } else if q == Windows && p != Windows {
      WindowsLast(root, p);
    } else if p != q {
      OriginsChatCommute(root);
    }
  }

  lemma WindowsLast(root: Fields, p: Patch)
    requires p != Windows
    ensures WithWindows(Patched(root, p)) == Patched(WithWindows(root), p)
  {
    SettledElsewhere(root, Windows, p);
    PathsApart();
    var wild, yes := Arr([Str("*")]), Bool(true);
    hide Get, Put, Apart, WithWindows;
    if p == Chat {
      TargetsApart(Windows, Chat, PROVIDERS, CHAT_ENABLED);
      WindowsCommute(root, CHAT_ENABLED, yes);
    } else {
      TargetsApart(Windows, Origins, PROVIDERS, ORIGINS);
      TargetsApart(Windows, Origins, PROVIDERS, UI_ENABLED);
      WindowsFrame(root, UI_ENABLED);
      WindowsCommute(root, ORIGINS, wild);
      WindowsCommute(Put(root, ORIGINS, wild), UI_ENABLED, yes);
    }
  }

  /** So any list of patches in any order and with any repetition settles exactly the matters it
      names: applying a patch earlier or later, or once more, makes no difference. */
  lemma {:induction false} AnyOrder(root: Fields, patches: seq<Patch>, p: Patch)
    ensures PatchedAll(Patched(root, p), patches) == Patched(PatchedAll(root, patches), p)
    ensures p in patches ==> Patched(PatchedAll(root, patches), p) == PatchedAll(root, patches)
    decreases |patches|
  {
    hide Patched;
    if patches != [] {
      var first := patches[0];
      PatchesCommute(root, p, first);
      AnyOrder(Patched(root, first), patches[1..], p);
      if p == first {
        AnyOrder(root, patches[1..], p);
        PatchTwice(PatchedAll(root, patches[1..]), p);
      }
    }
  }

  /** Two lists of patches that name the same ones give the same document. */
  lemma {:induction false} SameSetSameResult(root: Fields, ps: seq<Patch>, qs: seq<Patch>)
    requires forall p :: p in ps <==> p in qs
    ensures PatchedAll(root, ps) == PatchedAll(root, qs)
  {
    Absorbed(root, ps, qs);
    Absorbed(root, qs, ps);
    BothOrders(root, ps, qs);
  }

  lemma {:induction false} Absorbed(root: Fields, ps: seq<Patch>, qs: seq<Patch>)
    requires forall p :: p in qs ==> p in ps
    ensures PatchedAll(PatchedAll(root, ps), qs) == PatchedAll(root, ps)
    decreases |qs|
  {
    hide Patched;
    if qs != [] {
      AnyOrder(root, ps, qs[0]);
      Absorbed(root, ps, qs[1..]);
    }
  }

  lemma {:induction false} BothOrders(root: Fields, ps: seq<Patch>, qs: seq<Patch>)
    ensures PatchedAll(PatchedAll(root, ps), qs) == PatchedAll(PatchedAll(root, qs), ps)
    decreases |qs|
  {
    hide Patched;
    if qs != [] {
      AnyOrder(root, ps, qs[0]);
      BothOrders(Patched(root, qs[0]), ps, qs[1..]);
    }
  }
}
