/** Raising the context windows of Ollama models: internal/app_openclaw_files.go, lines 113-165. */
module OllamaWindows {
  import opened Text
  import opened JsonPaths

  const MIN_CONTEXT := 16000.0
  const FIXED_CONTEXT := 16384.0
  const PROVIDERS: Path := ["models", "providers"]

  predicate IsOllama(provider: Json) {
    && provider.Obj? && "api" in provider.fields && provider.fields["api"].Str?
    && Lower(Trim(provider.fields["api"].s)) == "ollama"
  }

  predicate TooSmall(model: Json) {
    && model.Obj? && "contextWindow" in model.fields && model.fields["contextWindow"].Num?
    && model.fields["contextWindow"].n < MIN_CONTEXT
  }

  predicate HasModels(provider: Json) {
    provider.Obj? && "models" in provider.fields && provider.fields["models"].Arr?
  }

  function Raised(model: Json): Json {
    if TooSmall(model) then Obj(model.fields["contextWindow" := Num(FIXED_CONTEXT)]) else model
  }

  function RaisedAll(items: seq<Json>): seq<Json> {
    seq(|items|, i requires 0 <= i < |items| => Raised(items[i]))
  }

  function RaisedProvider(provider: Json): Json {
    if IsOllama(provider) && HasModels(provider) then
      Obj(provider.fields["models" := Arr(RaisedAll(provider.fields["models"].items))])
    else provider
  }

  function RaisedProviders(providers: Fields): Fields {
    map key | key in providers :: RaisedProvider(providers[key])
  }

  function WithWindows(root: Fields): Fields {
    match Get(root, PROVIDERS)
    case Some(Obj(providers)) => Put(root, PROVIDERS, Obj(RaisedProviders(providers)))
    case _ => root
  }

  // ---------------------------------------------------------------- the loops

  method RaiseModels(items: seq<Json>) returns (out: seq<Json>, changed: bool)
    ensures out == RaisedAll(items)
    ensures changed == (out != items)
  {
    out, changed := items, false;
    for i := 0 to |items|
      invariant |out| == |items|
      invariant forall j :: 0 <= j < i ==> out[j] == Raised(items[j])
      invariant forall j :: i <= j < |items| ==> out[j] == items[j]
      invariant changed == exists j :: 0 <= j < i && TooSmall(items[j])
    {
      var m := out[i];
      if !m.Obj? {
        continue;
      }
      if "contextWindow" !in m.fields || !m.fields["contextWindow"].Num? || m.fields["contextWindow"].n >= MIN_CONTEXT {
        continue;
      }
      out := out[i := Obj(m.fields["contextWindow" := Num(FIXED_CONTEXT)])];
      changed := true;
    }
    RaisedAllSame(items);
  }

  method RaiseProviders(providers: Fields) returns (out: Fields, changed: bool)
    ensures out == RaisedProviders(providers)
    ensures changed == (out != providers)
  {
    hide IsOllama, RaisedAll, RaisedProvider, RaisedProviders;
    RaisedKeys(providers);
    out, changed := providers, false;
    var todo := providers.Keys;
    while todo != {}
      invariant todo <= providers.Keys == out.Keys
      invariant forall key :: key in todo ==> out[key] == providers[key]
      invariant forall key :: key in providers && key !in todo ==> out[key] == RaisedProvider(providers[key])
      invariant changed == (out != providers)
      decreases |todo|
    {
      var key :| key in todo;
      todo := todo - {key};
      var p := out[key];
      RaisedIs(providers, key);
      if !p.Obj? || !IsOllama(p) || !HasModels(p) {
        continue;
      }
      var items, any := RaiseModels(p.fields["models"].items);
      ghost var before := out;
      out := out[key := Obj(p.fields["models" := Arr(items)])];
      changed := changed || any;
      OneProvider(providers, before, key, items);
    }
  }

  lemma RaisedKeys(providers: Fields)
    ensures RaisedProviders(providers).Keys == providers.Keys
    ensures forall key :: key in providers ==> RaisedProviders(providers)[key] == RaisedProvider(providers[key])
  {
  }

  lemma RaisedIs(providers: Fields, key: string)
    requires key in providers
    ensures var p := providers[key];
            RaisedProvider(p) == if IsOllama(p) && HasModels(p) then
                                   Obj(p.fields["models" := Arr(RaisedAll(p.fields["models"].items))])
                                 else p
  {
  }

  lemma OneProvider(providers: Fields, before: Fields, key: string, items: seq<Json>)
    requires key in providers && before.Keys == providers.Keys && before[key] == providers[key]
    requires HasModels(providers[key])
    ensures before[key := Obj(providers[key].fields["models" := Arr(items)])] != providers
            <==> before != providers || items != providers[key].fields["models"].items
  {
    var p := providers[key];
    var after := before[key := Obj(p.fields["models" := Arr(items)])];
    if items == p.fields["models"].items {
      assert p.fields["models" := Arr(items)] == p.fields;
      assert after == before;
    } else {
      assert after[key].fields["models"] == Arr(items) != p.fields["models"];
      assert after[key] != providers[key];
    }
    if before != providers {
      var k :| k in providers && before[k] != providers[k];
      assert after[k] == before[k];
    }
  }

  // ---------------------------------------------------------------- laws

  lemma RaisedAllSame(items: seq<Json>)
    ensures RaisedAll(items) == items <==> forall j :: 0 <= j < |items| ==> !TooSmall(items[j])
  {
    forall j | 0 <= j < |items| ensures Raised(items[j]) == items[j] <==> !TooSmall(items[j]) {
      RaisedOnce(items[j]);
    }
    if RaisedAll(items) == items {
      forall j | 0 <= j < |items| ensures !TooSmall(items[j]) {
        assert RaisedAll(items)[j] == Raised(items[j]);
      }
    }
  }

  /** A raised window is large enough, and nothing but a low window is raised. */
  lemma RaisedOnce(model: Json)
    ensures !TooSmall(Raised(model)) && (Raised(model) == model <==> !TooSmall(model))
    ensures model.Obj? ==> Raised(model).Obj? && Raised(model).fields - {"contextWindow"} == model.fields - {"contextWindow"}
    ensures !model.Obj? ==> Raised(model) == model
  {
  }

  /** Some model of an Ollama provider has too small a window. */
  ghost predicate LowWindow(provider: Json) {
    IsOllama(provider) && HasModels(provider)
    && exists j :: 0 <= j < |provider.fields["models"].items| && TooSmall(provider.fields["models"].items[j])
  }

  lemma ProviderOnce(provider: Json)
    ensures !LowWindow(RaisedProvider(provider))
    ensures RaisedProvider(provider) == provider <==> !LowWindow(provider)
  {
    if IsOllama(provider) && HasModels(provider) {
      var items := provider.fields["models"].items;
      RaisedAllSame(items);
      forall j | 0 <= j < |items| ensures !TooSmall(RaisedAll(items)[j]) {
        RaisedOnce(items[j]);
      }
      hide IsOllama, TooSmall, RaisedAll;
      var after := RaisedProvider(provider);
      assert after.fields["models"] == Arr(RaisedAll(items));
      if RaisedAll(items) == items {
        assert provider.fields["models" := Arr(items)] == provider.fields;
      }
    }
  }

  ghost predicate AnyLow(root: Fields) {
    var found := Get(root, PROVIDERS);
    found.Some? && found.value.Obj? && exists key :: key in found.value.fields && LowWindow(found.value.fields[key])
  }

  /** Afterwards no window is low; the document changes only if one was, and only there. */
  lemma WindowsChange(root: Fields)
    ensures !AnyLow(WithWindows(root))
    ensures WithWindows(root) == root <==> !AnyLow(root)
  {
    hide Get, Put, RaisedProvider, LowWindow;
    match Get(root, PROVIDERS) {
      case Some(Obj(providers)) =>
        var after := RaisedProviders(providers);
        GetPut(root, PROVIDERS, Obj(after));
        forall key | key in providers
          ensures !LowWindow(after[key]) && (after[key] == providers[key] <==> !LowWindow(providers[key]))
        {
          ProviderOnce(providers[key]);
        }
        if !AnyLow(root) {
          assert after == providers;
          PutGet(root, PROVIDERS, Obj(providers));
        }
      case _ =>
    }
  }

  lemma WindowsFrame(root: Fields, other: Path)
    requires Apart(PROVIDERS, other)
    ensures Get(WithWindows(root), other) == Get(root, other)
  {
    match Get(root, PROVIDERS) {
      case Some(Obj(providers)) => GetPutApart(root, PROVIDERS, Obj(RaisedProviders(providers)), other);
      case _ =>
    }
  }

  lemma WindowsCommute(root: Fields, path: Path, value: Json)
    requires Apart(PROVIDERS, path)
    ensures WithWindows(Put(root, path, value)) == Put(WithWindows(root), path, value)
  {
    hide Get, Put, Apart, RaisedProviders;
    ApartSym(PROVIDERS, path);
    GetPutApart(root, path, value, PROVIDERS);
    match Get(root, PROVIDERS) {
      case Some(Obj(providers)) => PutPutApart(root, path, value, PROVIDERS, Obj(RaisedProviders(providers)));
      case _ =>
    }
  }

  /** Inside the providers: other providers, and the other keys of an Ollama provider, stay; its
      model list keeps its length, and each model all but its window. */
  lemma WindowsWithin(providers: Fields, key: string)
    requires key in providers
    ensures !IsOllama(providers[key]) || !HasModels(providers[key]) ==> RaisedProviders(providers)[key] == providers[key]
    ensures IsOllama(providers[key]) && HasModels(providers[key]) ==>
              var before, after := providers[key].fields, RaisedProviders(providers)[key];
              && after.Obj? && after.fields - {"models"} == before - {"models"} && HasModels(after)
              && |after.fields["models"].items| == |before["models"].items|
              && forall j :: 0 <= j < |before["models"].items| ==>
                   && after.fields["models"].items[j] == Raised(before["models"].items[j])
  {
    hide IsOllama, Raised;
  }
}
