/** The writers of openclaw.json that work on fixed keys: internal/app_openclaw_files.go, lines
    54-111, and internal/app_openclaw_proxy.go, lines 61-85. */
module OpenClawConfig {
  import opened Text
  import opened Options
  import opened JsonPaths

  const ORIGINS: Path := ["gateway", "controlUi", "allowedOrigins"]
  const UI_ENABLED: Path := ["gateway", "controlUi", "enabled"]
  const CHAT_ENABLED: Path := ["gateway", "http", "endpoints", "chatCompletions", "enabled"]
  const HTTP_PROXY: Path := ["env", "HTTP_PROXY"]
  const HTTPS_PROXY: Path := ["env", "HTTPS_PROXY"]

  predicate HasOrigins(root: Fields) {
    var found := Get(root, ORIGINS);
    found.Some? && found.value.Arr? && found.value.items != []
  }

  function WithOrigins(root: Fields): Fields {
    if HasOrigins(root) then root
    else
      var written := Put(root, ORIGINS, Arr([Str("*")]));
      if Get(root, UI_ENABLED).None? then Put(written, UI_ENABLED, Bool(true)) else written
  }

  predicate HasChat(root: Fields) {
    Get(root, CHAT_ENABLED) == Some(Bool(true))
  }

  function WithChat(root: Fields): Fields {
    if HasChat(root) then root else Put(root, CHAT_ENABLED, Bool(true))
  }

  /** Without the proxy variables, and without an env object they leave empty. */
  function WithoutProxy(root: Fields): Fields {
    if "env" in root && root["env"].Obj? then
      var left := root["env"].fields - {"HTTP_PROXY", "HTTPS_PROXY"};
      if left == map[] then root - {"env"} else root["env" := Obj(left)]
    else root
  }

  function WithProxy(root: Fields, proxy: string): Fields {
    if Trim(proxy) == "" then WithoutProxy(root)
    else Put(Put(root, HTTP_PROXY, Str(Trim(proxy))), HTTPS_PROXY, Str(Trim(proxy)))
  }

  lemma PathsApart()
    ensures Apart(ORIGINS, UI_ENABLED) && Apart(ORIGINS, CHAT_ENABLED) && Apart(UI_ENABLED, CHAT_ENABLED)
    ensures Apart(HTTP_PROXY, HTTPS_PROXY)
  {
    assert ORIGINS[1..] == ["controlUi", "allowedOrigins"] && UI_ENABLED[1..] == ["controlUi", "enabled"];
    assert ORIGINS[1..][1..] == ["allowedOrigins"] && UI_ENABLED[1..][1..] == ["enabled"];
    assert CHAT_ENABLED[1..] == ["http", "endpoints", "chatCompletions", "enabled"];
    assert HTTP_PROXY[1..] == ["HTTP_PROXY"] && HTTPS_PROXY[1..] == ["HTTPS_PROXY"];
  }

  // ---------------------------------------------------------------- the in-place writers

  class Config {
    var root: Fields

    constructor (parsed: Fields)
      ensures root == parsed
    {
      root := parsed;
    }

    /** Looks an object up, and makes an empty one where there is none. */
    method EnsureObject(path: Path)
      modifies this
      ensures root == WithObject(old(root), path)
    {
      var found := Get(root, path);
      if found.None? || !found.value.Obj? {
        root := Put(root, path, Obj(map[]));
      }
    }

    method PatchAllowedOriginsIfEmpty() returns (changed: bool)
      modifies this
      ensures root == WithOrigins(old(root))
      ensures changed == (root != old(root))
    {
      hide Get, Put, Apart, WithObject;
      MadeTwice(root, ["gateway"], ["controlUi"], ["allowedOrigins"], Arr([Str("*")]));
      MadeTwice(root, ["gateway"], ["controlUi"], ["enabled"], Bool(true));
      EnsureObject(["gateway"]);
      EnsureObject(["gateway"] + ["controlUi"]);
      assert ["gateway"] + ["controlUi"] + ["allowedOrigins"] == ORIGINS;
      assert ["gateway"] + ["controlUi"] + ["enabled"] == UI_ENABLED;
      OriginsChange(old(root));
      var origins := Get(root, ORIGINS);
      if origins.None? || !origins.value.Arr? || origins.value.items == [] {
        PathsApart();
        GetPutApart(root, ORIGINS, Arr([Str("*")]), UI_ENABLED);
        root := Put(root, ORIGINS, Arr([Str("*")]));
        if Get(root, UI_ENABLED).None? {
          root := Put(root, UI_ENABLED, Bool(true));
        }
        return true;
      }
      return false;
    }

    method PatchChatCompletionsIfDisabled() returns (changed: bool)
      modifies this
      ensures root == WithChat(old(root))
      ensures changed == (root != old(root))
    {
      hide Get, Put, Apart, WithObject;
      var gateway, http: Path, endpoints: Path, chat: Path :=
        ["gateway"], ["gateway", "http"], ["gateway", "http", "endpoints"],
        ["gateway", "http", "endpoints", "chatCompletions"];
      ChatAncestors(root);
      EnsureObject(gateway);
      EnsureObject(http);
      EnsureObject(endpoints);
      EnsureObject(chat);
      if Get(root, CHAT_ENABLED) == Some(Bool(true)) {
        return false;
      }
      GetPut(old(root), CHAT_ENABLED, Bool(true));
      root := Put(root, CHAT_ENABLED, Bool(true));
      return true;
    }

    method MergeHttpProxy(proxy: string)
      modifies this
      ensures root == WithProxy(old(root), proxy)
    {
      hide Trim, Get, Put, WithObject;
      var value := Trim(proxy);
      if value == "" {
        if "env" !in root || !root["env"].Obj? {
          return;
        }
        var env := root["env"].fields;
        env := env - {"HTTP_PROXY"};
        env := env - {"HTTPS_PROXY"};
        assert env == root["env"].fields - {"HTTP_PROXY", "HTTPS_PROXY"};
        if env == map[] {
          root := root - {"env"};
        } else {
          root := root["env" := Obj(env)];
        }
        return;
      }
      EnsureObject(["env"]);
      MadeOnTheWay(old(root), ["env"], ["HTTP_PROXY"], Str(value));
      assert ["env"] + ["HTTP_PROXY"] == HTTP_PROXY;
      root := Put(root, HTTP_PROXY, Str(value));
      root := Put(root, HTTPS_PROXY, Str(value));
    }
  }

  lemma MadeTwice(root: Fields, p: Path, q: Path, r: Path, value: Json)
    ensures var made := WithObject(WithObject(root, p), p + q);
            && Get(made, p + q + r) == Get(root, p + q + r)
            && Put(made, p + q + r, value) == Put(root, p + q + r, value)
            && (Get(root, p + q + r).Some? ==> made == root)
  {
    assert p + (q + r) == p + q + r;
    MadeOnTheWay(root, p, q + r, value);
    MadeOnTheWay(WithObject(root, p), p + q, r, value);
  }

  lemma ChatAncestors(root: Fields)
    ensures var made := WithObject(WithObject(WithObject(WithObject(root, ["gateway"]), ["gateway", "http"]),
              ["gateway", "http", "endpoints"]), ["gateway", "http", "endpoints", "chatCompletions"]);
            && Get(made, CHAT_ENABLED) == Get(root, CHAT_ENABLED)
            && Put(made, CHAT_ENABLED, Bool(true)) == Put(root, CHAT_ENABLED, Bool(true))
            && (Get(root, CHAT_ENABLED).Some? ==> made == root)
  {
    hide Get, Put, WithObject;
    var v := Bool(true);
    var r1 := WithObject(root, ["gateway"]);
    MadeOnTheWay(root, ["gateway"], ["http", "endpoints", "chatCompletions", "enabled"], v);
    assert ["gateway"] + ["http", "endpoints", "chatCompletions", "enabled"] == CHAT_ENABLED;
    var r2 := WithObject(r1, ["gateway", "http"]);
    MadeOnTheWay(r1, ["gateway", "http"], ["endpoints", "chatCompletions", "enabled"], v);
    assert ["gateway", "http"] + ["endpoints", "chatCompletions", "enabled"] == CHAT_ENABLED;
    var r3 := WithObject(r2, ["gateway", "http", "endpoints"]);
    MadeOnTheWay(r2, ["gateway", "http", "endpoints"], ["chatCompletions", "enabled"], v);
    assert ["gateway", "http", "endpoints"] + ["chatCompletions", "enabled"] == CHAT_ENABLED;
    MadeOnTheWay(r3, ["gateway", "http", "endpoints", "chatCompletions"], ["enabled"], v);
    assert ["gateway", "http", "endpoints", "chatCompletions"] + ["enabled"] == CHAT_ENABLED;
  }

  // ---------------------------------------------------------------- laws

  /** Afterwards there are origins: a stored non-empty list as it was, else the wildcard; a stored
      enabled flag is kept; nothing else changes. */
  lemma OriginsChange(root: Fields)
    ensures var after := WithOrigins(root);
            && HasOrigins(after) && (after == root <==> HasOrigins(root))
            && (!HasOrigins(root) ==> Get(after, ORIGINS) == Some(Arr([Str("*")])))
            && Get(after, UI_ENABLED)
               == (if Get(root, UI_ENABLED).Some? || HasOrigins(root) then Get(root, UI_ENABLED) else Some(Bool(true)))
  {
    hide Get, Put, Apart;
    PathsApart();
    var wild := Arr([Str("*")]);
    var written := Put(root, ORIGINS, wild);
    GetPut(root, ORIGINS, wild);
    GetPutApart(root, ORIGINS, wild, UI_ENABLED);
    ApartSym(ORIGINS, UI_ENABLED);
    GetPutApart(written, UI_ENABLED, Bool(true), ORIGINS);
    GetPut(written, UI_ENABLED, Bool(true));
  }

  lemma OriginsFrame(root: Fields, other: Path)
    requires Apart(ORIGINS, other) && Apart(UI_ENABLED, other)
    ensures Get(WithOrigins(root), other) == Get(root, other)
  {
    hide Get, Put, Apart;
    GetPutApart(root, ORIGINS, Arr([Str("*")]), other);
    GetPutApart(Put(root, ORIGINS, Arr([Str("*")])), UI_ENABLED, Bool(true), other);
  }

  lemma ChatFrame(root: Fields, other: Path)
    requires Apart(CHAT_ENABLED, other)
    ensures Get(WithChat(root), other) == Get(root, other)
  {
    GetPutApart(root, CHAT_ENABLED, Bool(true), other);
  }

  lemma OriginsChatCommute(root: Fields)
    ensures WithChat(WithOrigins(root)) == WithOrigins(WithChat(root))
  {
    hide Get, Put, Apart;
    PathsApart();
    ApartSym(ORIGINS, CHAT_ENABLED);
    ApartSym(UI_ENABLED, CHAT_ENABLED);
    OriginsFrame(root, CHAT_ENABLED);
    ChatFrame(root, ORIGINS);
    ChatFrame(root, UI_ENABLED);
    var wild, yes := Arr([Str("*")]), Bool(true);
    PutPutApart(root, ORIGINS, wild, CHAT_ENABLED, yes);
    PutPutApart(Put(root, ORIGINS, wild), UI_ENABLED, yes, CHAT_ENABLED, yes);
  }

  /** The last proxy set wins over any before it. */
  lemma LastProxyWins(root: Fields, first: string, last: string)
    requires Trim(last) != ""
    ensures WithProxy(WithProxy(root, first), last) == WithProxy(root, last)
    ensures Get(WithProxy(root, last), HTTP_PROXY) == Get(WithProxy(root, last), HTTPS_PROXY) == Some(Str(Trim(last)))
  {
    hide Trim;
    SetProxy(root, Trim(first));
    SetProxy(root, Trim(last));
    SetProxy(WithProxy(root, first), Trim(last));
    hide Get, Put;
    var value := Str(Trim(last));
    var env := Child(root, "env");
    var once := WithProxy(root, first);
    if Trim(first) != "" {
      assert Child(once, "env") == env["HTTP_PROXY" := Str(Trim(first))]["HTTPS_PROXY" := Str(Trim(first))];
    } else {
      assert Child(WithoutProxy(root), "env") == env - {"HTTP_PROXY", "HTTPS_PROXY"};
      assert (env - {"HTTP_PROXY", "HTTPS_PROXY"})["HTTP_PROXY" := value]["HTTPS_PROXY" := value]
          == env["HTTP_PROXY" := value]["HTTPS_PROXY" := value];
    }
    assert Child(once, "env")["HTTP_PROXY" := value]["HTTPS_PROXY" := value]
        == env["HTTP_PROXY" := value]["HTTPS_PROXY" := value];
    assert forall key :: key in once + root && key != "env" ==> key in once && key in root && once[key] == root[key];
  }

  lemma SetProxy(root: Fields, value: string)
    ensures var after := Put(Put(root, HTTP_PROXY, Str(value)), HTTPS_PROXY, Str(value));
            && after == root["env" := Obj(Child(root, "env")["HTTP_PROXY" := Str(value)]["HTTPS_PROXY" := Str(value)])]
            && Get(after, HTTP_PROXY) == Get(after, HTTPS_PROXY) == Some(Str(value))
  {
    var one := Put(root, HTTP_PROXY, Str(value));
    assert HTTP_PROXY[1..] == ["HTTP_PROXY"] && HTTPS_PROXY[1..] == ["HTTPS_PROXY"];
    assert one == root["env" := Obj(Child(root, "env")["HTTP_PROXY" := Str(value)])];
  }

  /** Setting and then clearing is clearing, unless env held something other than an object: that
      is lost to the set, and a clear alone would have left it. */
  lemma SetThenClear(root: Fields, proxy: string)
    ensures WithoutProxy(WithProxy(root, proxy)) == WithoutProxy(root)
            <==> Trim(proxy) == "" || "env" !in root || root["env"].Obj?
  {
    hide Trim;
    SetProxy(root, Trim(proxy));
    hide Get, Put;
    var env := Child(root, "env");
    var v := Str(Trim(proxy));
    assert env["HTTP_PROXY" := v]["HTTPS_PROXY" := v] - {"HTTP_PROXY", "HTTPS_PROXY"} == env - {"HTTP_PROXY", "HTTPS_PROXY"};
    if Trim(proxy) != "" {
      var once := WithProxy(root, proxy);
      var left := env - {"HTTP_PROXY", "HTTPS_PROXY"};
      assert WithoutProxy(once) == if left == map[] then root - {"env"} else root["env" := Obj(left)];
      if "env" !in root {
        assert left == map[] && root - {"env"} == root;
      } else if !root["env"].Obj? {
        assert left == map[] && "env" !in WithoutProxy(once) && "env" in WithoutProxy(root);
      }
    } else if "env" in root && root["env"].Obj? {
      assert env - {"HTTP_PROXY", "HTTPS_PROXY"} - {"HTTP_PROXY", "HTTPS_PROXY"} == env - {"HTTP_PROXY", "HTTPS_PROXY"};
    }
  }

  /** A string in env is lost to a set and does not come back with a clear. */
  lemma StringEnvIsLost()
    ensures var root: Fields := map["env" := Str("x")];
            && WithoutProxy(root) == root
            && WithoutProxy(WithProxy(root, "p")) == map[]
  {
    var root: Fields := map["env" := Str("x")];
    assert Trim("p") == "p";
    SetProxy(root, "p");
    hide Get, Put, Trim;
    var v := Str("p");
    var env: Fields := map[];
    assert env["HTTP_PROXY" := v]["HTTPS_PROXY" := v] - {"HTTP_PROXY", "HTTPS_PROXY"} == map[];
  }

  lemma ProxyFrame(root: Fields, proxy: string, other: Path)
    requires Apart(HTTP_PROXY, other) && Apart(HTTPS_PROXY, other)
    ensures Get(WithProxy(root, proxy), other) == Get(root, other)
  {
    hide Trim;
    if Trim(proxy) != "" {
      hide Put, Get;
      GetPutApart(root, HTTP_PROXY, Str(Trim(proxy)), other);
      GetPutApart(Put(root, HTTP_PROXY, Str(Trim(proxy))), HTTPS_PROXY, Str(Trim(proxy)), other);
    } else if other[0] == "env" {
      ApartBelow(["env"], "HTTP_PROXY", other);
      ApartBelow(["env"], "HTTPS_PROXY", other);
      GetStep(root, other);
      GetStep(WithoutProxy(root), other);
      if "env" in root && root["env"].Obj? {
        var env := root["env"].fields;
        assert Get(env - {"HTTP_PROXY", "HTTPS_PROXY"}, other[1..]) == Get(env, other[1..]);
      }
    }
  }

  lemma ApartBelow(head: Path, key: string, other: Path)
    requires |head| == 1 && other[0] == head[0] && Apart(head + [key], other)
    ensures |other| > 1 && other[1..][0] != key
  {
    assert (head + [key])[1..] == [key];
    var rest := other[1..];
    assert Apart([key], rest) && [key][1..] == [];
    assert key != rest[0] || Apart([], rest[1..]);
  }
}
