/** Which urls, routes and models a call tries: internal/app_openclaw_upstream.go, lines 27-150, and
    internal/app_openclaw_chat.go, lines 365-388. */
module GatewayTerms {
  import opened Text
  import opened GatewayFallback

  lemma {:induction false} TrimSlashesMeans(s: string) returns (b: string)
    ensures s == TrimSlashes(s) + b && forall i :: 0 <= i < |b| ==> b[i] == '/'
    ensures TrimSlashes(s) != "" ==> TrimSlashes(s)[|TrimSlashes(s)| - 1] != '/'
    decreases |s|
  {
    b := "";
    if s != "" && s[|s| - 1] == '/' {
      var more := TrimSlashesMeans(s[..|s| - 1]);
      b := more + "/";
    }
  }

  /** The base is the address given, without white space around it and slashes at its end. */
  lemma BaseMeans(raw: string) returns (slashes: string)
    ensures Trim(raw) == Base(raw) + slashes && forall i :: 0 <= i < |slashes| ==> slashes[i] == '/'
    ensures Base(raw) != "" ==> Base(raw)[|Base(raw)| - 1] != '/'
  {
    hide Trim;
    slashes := TrimSlashesMeans(Trim(raw));
  }

  lemma VersionedPath(b: string)
    ensures b + "/v1" + "/chat/completions" == b + "/v1/chat/completions"
  {
    assert "/v1" + "/chat/completions" == "/v1/chat/completions";
    assert b + "/v1" + "/chat/completions" == b + ("/v1" + "/chat/completions");
  }

  /** A base with a version segment is asked below it and then, if it is a gateway, without it. */
  lemma VersionedUrls(raw: string, gateway: bool, stem: string)
    requires Base(raw) == stem + "/v1"
    ensures Urls(raw, gateway)
            == [stem + "/v1/chat/completions"] + if gateway then [stem + "/chat/completions"] else []
  {
    hide Base, Contains;
    var b := stem + "/v1";
    assert b[|b| - 3..] == "/v1" && b[..|b| - 3] == stem;
    VersionedPath(stem);
    assert |b + "/chat/completions"| != |stem + "/chat/completions"|;
  }

  /** Any other base gets a version segment, except at open.bigmodel.cn; a gateway is then asked
      without it as well. */
  lemma OtherUrls(raw: string, gateway: bool)
    requires var b := Base(raw); |b| < 3 || b[|b| - 3..] != "/v1"
    ensures var b := Base(raw);
            Urls(raw, gateway)
            == if b == "" then []
               else if Contains(b, "open.bigmodel.cn") then [b + "/chat/completions"]
               else [b + "/v1/chat/completions"] + if gateway then [b + "/chat/completions"] else []
  {
    hide Base, Contains;
    var b := Base(raw);
    VersionedPath(b);
    assert |b + "/v1/chat/completions"| != |b + "/chat/completions"|;
  }

  /** A plain model server is asked for the model; a gateway for its agent, with the model in the header:
      with a provider before it if it has none, and then bare. */
  lemma RoutesMean(model: string, gateway: bool)
    ensures var m := Trim(model); var low := Lower(m);
            var own := low == "openclaw" || "openclaw/" <= low || "openclaw:" <= low;
            var provider := if "claude-" <= low || "claude_" <= low then "anthropic/" else "openai/";
            && (!gateway ==> Routes(model, gateway) == [Route(model, "")])
            && (gateway && m == "" ==> Routes(model, gateway) == [Route("openclaw/default", "")])
            && (gateway && own ==> Routes(model, gateway) == [Route(m, "")])
            && (gateway && m != "" && !own && Contains(m, "/") ==> Routes(model, gateway) == [Route("openclaw/default", m)])
            && (gateway && m != "" && !own && !Contains(m, "/") ==>
                  Routes(model, gateway) == [Route("openclaw/default", provider + m), Route("openclaw/default", m)])
  {
    TrimIdempotent(model);
    hide Trim, Contains;
    var m := Trim(model);
    assert |Lower(m)| == |m|;
    assert |"anthropic/" + m| != |m| && |"openai/" + m| != |m|;
  }

  lemma LowerModels()
    ensures Lower("gpt-4o-mini") == "gpt-4o-mini" && Lower("gpt-3.5-turbo") == "gpt-3.5-turbo"
    ensures Trim("gpt-4o-mini") == "gpt-4o-mini" && Trim("gpt-3.5-turbo") == "gpt-3.5-turbo"
  {
    assert !IsSpace("gpt-4o-mini"[0]) && !IsSpace("gpt-4o-mini"[10]);
    assert !IsSpace("gpt-3.5-turbo"[0]) && !IsSpace("gpt-3.5-turbo"[12]);
  }

  lemma ModelOrDefaultIs(primary: string)
    ensures ModelOrDefault(primary) == if Trim(primary) == "" then "MiniMax-M2.7" else Trim(primary)
    ensures ModelOrDefault(primary) != "" && Trim(ModelOrDefault(primary)) == ModelOrDefault(primary)
  {
    TrimIdempotent(primary);
    FallbackIsTrimmed();
    hide Trim;
  }

  /** A ping tries the model configured and then the two stock models, unless one of them is the model
      configured, in whatever case. */
  lemma PingModelsMean(primary: string)
    ensures var first := ModelOrDefault(primary);
            PingModels(primary)
            == [first] + (if Lower(first) == "gpt-4o-mini" then [] else ["gpt-4o-mini"])
               + (if Lower(first) == "gpt-3.5-turbo" then [] else ["gpt-3.5-turbo"])
  {
    LowerModels();
    ModelOrDefaultIs(primary);
    hide Trim, ModelOrDefault, Lower;
    var first := ModelOrDefault(primary);
    var one := AddModel([], first);
    assert one == [first];
    var two := AddModel(one, "gpt-4o-mini");
    assert two == [first] + if Lower(first) == "gpt-4o-mini" then [] else ["gpt-4o-mini"] by {
      assert SeenModel(one, "gpt-4o-mini") <==> Lower(one[0]) == "gpt-4o-mini";
    }
    assert "gpt-4o-mini" != "gpt-3.5-turbo";
    assert SeenModel(two, "gpt-3.5-turbo") <==> Lower(two[0]) == "gpt-3.5-turbo";
  }
}
