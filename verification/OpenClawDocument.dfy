/** What openclaw.json holds after the built-in remediations, and after setting or clearing a proxy, key
    by key: internal/app_openclaw_files.go, lines 54-190, and internal/app_openclaw_proxy.go, lines
    61-85. */
module OpenClawDocument {
  import opened Text
  import opened Options
  import opened JsonPaths
  import opened OllamaWindows
  import opened OpenClawConfig
  import opened OpenClawRemediation

  predicate NonEmptyArray(found: Option<Json>) {
    found.Some? && found.value.Arr? && found.value.items != []
  }

  /** The dashboard may be reached: a stored list of origins is kept, a missing one becomes the wildcard,
      and a missing enabled flag is then set. The chat endpoint is on. */
  lemma AfterRemediations(root: Fields)
    ensures var after := PatchedAll(root, [Origins, Chat, Windows]);
            var origins := ["gateway", "controlUi", "allowedOrigins"]; var flag := ["gateway", "controlUi", "enabled"];
            && Get(after, origins) == (if NonEmptyArray(Get(root, origins)) then Get(root, origins) else Some(Arr([Str("*")])))
            && Get(after, flag)
               == (if Get(root, flag).Some? || NonEmptyArray(Get(root, origins)) then Get(root, flag) else Some(Bool(true)))
            && Get(after, ["gateway", "http", "endpoints", "chatCompletions", "enabled"]) == Some(Bool(true))
  {
    var r1, r2 := WithOrigins(root), WithChat(WithOrigins(root));
    RunOf(root);
    OriginsChange(root);
    PathsApart();
    ApartSym(ORIGINS, CHAT_ENABLED);
    ApartSym(UI_ENABLED, CHAT_ENABLED);
    ChatFrame(r1, ORIGINS);
    ChatFrame(r1, UI_ENABLED);
    GetPut(r1, CHAT_ENABLED, Bool(true));
    TargetsApart(Windows, Origins, PROVIDERS, ORIGINS);
    TargetsApart(Windows, Origins, PROVIDERS, UI_ENABLED);
    TargetsApart(Windows, Chat, PROVIDERS, CHAT_ENABLED);
    WindowsFrame(r2, ORIGINS);
    WindowsFrame(r2, UI_ENABLED);
    WindowsFrame(r2, CHAT_ENABLED);
    hide Get, Put, Apart, WithOrigins, WithWindows, PatchedAll;
  }

  /** The model list of a provider whose api is ollama. */
  predicate IsOllamaList(provider: Json, models: seq<Json>) {
    && provider.Obj?
    && "api" in provider.fields && provider.fields["api"].Str? && Lower(Trim(provider.fields["api"].s)) == "ollama"
    && "models" in provider.fields && provider.fields["models"] == Arr(models)
  }

  predicate IsLow(model: Json) {
    && model.Obj? && "contextWindow" in model.fields && model.fields["contextWindow"].Num?
    && model.fields["contextWindow"].n < 16000.0
  }

  /** A model of an Ollama provider whose window is below 16000 gets 16384, and is else as before; so is
      every other model, and all other providers. */
  lemma AfterWindows(root: Fields, providers: Fields, key: string, models: seq<Json>)
    requires Get(root, ["models", "providers"]) == Some(Obj(providers)) && key in providers
    ensures var found := Get(WithWindows(root), ["models", "providers"]);
            && found.Some? && found.value.Obj? && found.value.fields.Keys == providers.Keys
            && var after := found.value.fields[key];
            && ((forall list: seq<Json> :: !IsOllamaList(providers[key], list)) ==> after == providers[key])
            && (IsOllamaList(providers[key], models) ==>
                  && after.Obj? && after.fields - {"models"} == providers[key].fields - {"models"}
                  && "models" in after.fields && after.fields["models"].Arr?
                  && var now := after.fields["models"].items;
                  && |now| == |models|
                  && forall j :: 0 <= j < |models| ==>
                       now[j] == if IsLow(models[j]) then Obj(models[j].fields["contextWindow" := Num(16384.0)]) else models[j])
  {
    GetPut(root, PROVIDERS, Obj(RaisedProviders(providers)));
    RaisedKeys(providers);
    WindowsWithin(providers, key);
    var p := providers[key];
    if IsOllama(p) && HasModels(p) {
      assert IsOllamaList(p, p.fields["models"].items);
    }
    hide Get, Put, RaisedProviders, Trim, Lower;
  }

  /** After a proxy is set both variables hold it, trimmed; after a blank one neither is there, the other
      variables are as before, and an env object they leave empty is gone. */
  lemma AfterProxy(root: Fields, proxy: string)
    ensures var after := WithProxy(root, proxy);
            && (Trim(proxy) != "" ==>
                  Get(after, ["env", "HTTP_PROXY"]) == Get(after, ["env", "HTTPS_PROXY"]) == Some(Str(Trim(proxy))))
            && (Trim(proxy) == "" && "env" in root && root["env"].Obj? ==>
                  var left := root["env"].fields - {"HTTP_PROXY", "HTTPS_PROXY"};
                  if left == map[] then after == root - {"env"} else after == root["env" := Obj(left)])
            && (Trim(proxy) == "" && ("env" in root ==> !root["env"].Obj?) ==> after == root)
  {
    SetProxy(root, Trim(proxy));
    hide Get, Put, Trim;
  }
}
