/** Posting to an OpenClaw gateway through candidate routes and urls:
    internal/app_openclaw_chat.go, lines 160-211, 276-346 and 365-539;
    internal/app_openclaw_upstream.go, lines 27-150. */
module GatewayFallback {
  import opened Text

  // ---------------------------------------------------------------- candidates

  /** What the request names: the model in the body, and the x-openclaw-model header. */
  datatype Route = Route(body: string, header: string)

  const COMPLETIONS := "/chat/completions"
  const FALLBACK_MODEL := "MiniMax-M2.7"
  const GATEWAY_MODEL := "openclaw/default"

  predicate HasSuffix(s: string, suffix: string) {
    |suffix| <= |s| && s[|s| - |suffix|..] == suffix
  }

  function TrimSlashes(s: string): string {
    if s != "" && s[|s| - 1] == '/' then TrimSlashes(s[..|s| - 1]) else s
  }

  function Base(raw: string): string {
    TrimSlashes(Trim(raw))
  }

  /** openClawOpenAIChatCompletionsURL */
  function MainUrl(raw: string): string {
    var b := Base(raw);
    if b == "" then ""
    else if HasSuffix(b, "/v1") || Contains(b, "open.bigmodel.cn") then b + COMPLETIONS
    else b + "/v1" + COMPLETIONS
  }

  /** The same base without its version segment. */
  function Stem(b: string): string {
    if HasSuffix(b, "/v1") then b[..|b| - 3] else b
  }

  /** The urls to try in turn; gateway says that the base is an in-cluster OpenClaw gateway. */
  function Urls(raw: string, gateway: bool): seq<string> {
    if Base(raw) == "" then []
    else
      var first, second := MainUrl(raw), Stem(Base(raw)) + COMPLETIONS;
      if gateway && second != first then [first, second] else [first]
  }

  /** openClawQualifyGatewayUpstreamModel */
  function Qualified(model: string): string {
    var m := Trim(model);
    if m == "" then ""
    else if Contains(m, "/") then m
    else if "claude-" <= Lower(m) || "claude_" <= Lower(m) then "anthropic/" + m
    else "openai/" + m
  }

  /** openClawGatewayRoutingCandidates */
  function GatewayRoutes(model: string): seq<Route> {
    var m := Trim(model);
    var low := Lower(m);
    if m == "" then [Route(GATEWAY_MODEL, "")]
    else if low == "openclaw" || "openclaw/" <= low || "openclaw:" <= low then [Route(m, "")]
    else if Qualified(m) != m then [Route(GATEWAY_MODEL, Qualified(m)), Route(GATEWAY_MODEL, m)]
    else [Route(GATEWAY_MODEL, Qualified(m))]
  }

  function Routes(model: string, gateway: bool): seq<Route> {
    if gateway then GatewayRoutes(model) else [Route(model, "")]
  }

  function ModelOrDefault(model: string): string {
    if Trim(model) == "" then FALLBACK_MODEL else Trim(model)
  }

  predicate SeenModel(models: seq<string>, m: string) {
    exists i :: 0 <= i < |models| && Lower(models[i]) == Lower(m)
  }

  function AddModel(models: seq<string>, raw: string): seq<string> {
    var m := Trim(raw);
    if m == "" || SeenModel(models, m) then models else models + [m]
  }

  /** openClawHealthPingModelCandidates */
  function PingModels(primary: string): seq<string> {
    AddModel(AddModel(AddModel([], ModelOrDefault(primary)), "gpt-4o-mini"), "gpt-3.5-turbo")
  }

  predicate DistinctModels(models: seq<string>) {
    forall i, j :: 0 <= i < j < |models| ==> Lower(models[i]) != Lower(models[j])
  }

  lemma AddModelDistinct(models: seq<string>, raw: string)
    requires DistinctModels(models)
    ensures DistinctModels(AddModel(models, raw)) && models <= AddModel(models, raw)
  {
    hide Lower, Trim;
    var r, m := AddModel(models, raw), Trim(raw);
    if r != models {
      forall i, j | 0 <= i < j < |r| ensures Lower(r[i]) != Lower(r[j]) {
        assert r[i] == models[i];
        if j == |models| {
          assert r[j] == m;
        }
      }
    }
  }

  /** The configured model is tried first, and no model twice, even in another case. */
  lemma PingModelsSpec(primary: string)
    ensures var ms := PingModels(primary);
            ms != [] && ms[0] == ModelOrDefault(primary) && DistinctModels(ms)
  {
    var first := ModelOrDefault(primary);
    assert first != "" && Trim(first) == first by {
      TrimIdempotent(primary);
      if Trim(primary) == "" {
        FallbackIsTrimmed();
      }
    }
    assert AddModel([], first) == [first];
    AddModelDistinct([], first);
    AddModelDistinct([first], "gpt-4o-mini");
    AddModelDistinct(AddModel([first], "gpt-4o-mini"), "gpt-3.5-turbo");
  }

  lemma FallbackIsTrimmed()
    ensures Trim(FALLBACK_MODEL) == FALLBACK_MODEL
  {
    assert !IsSpace(FALLBACK_MODEL[0]) && !IsSpace(FALLBACK_MODEL[|FALLBACK_MODEL| - 1]);
  }

  /** There is always a route, and a url whenever the base is not blank; none is repeated. */
  lemma CandidatesSpec(raw: string, gateway: bool, model: string)
    ensures 1 <= |Routes(model, gateway)| <= 2
    ensures forall i, j :: 0 <= i < j < |Routes(model, gateway)| ==> Routes(model, gateway)[i] != Routes(model, gateway)[j]
    ensures Base(raw) != "" ==> 1 <= |Urls(raw, gateway)| <= 2
    ensures forall i, j :: 0 <= i < j < |Urls(raw, gateway)| ==> Urls(raw, gateway)[i] != Urls(raw, gateway)[j]
  {
    hide Trim, Lower, Contains, Stem, MainUrl, Base, Qualified;
  }

  // ---------------------------------------------------------------- one request

  datatype Attempt = Reset | Broken | Answered(response: Response)

  datatype Parsed = BadJson | NoChoices | Reply(text: string)

  datatype Response = NoResponse | Http(status: nat, parsed: Parsed)

  const MAX_TRIES := 3

  /** How often a request is sent before its fate is settled: transient resets are retried. */
  function Tries(attempt: nat -> Attempt, k: nat): (n: nat)
    requires 1 <= k <= MAX_TRIES
    ensures k <= n <= MAX_TRIES
    ensures forall i :: k <= i < n ==> attempt(i).Reset?
    ensures n < MAX_TRIES ==> !attempt(n).Reset?
    decreases MAX_TRIES - k
  {
    if attempt(k).Reset? && k < MAX_TRIES then Tries(attempt, k + 1) else k
  }

  /** What a request comes to. */
  function Settlement(attempt: nat -> Attempt): Response {
    match attempt(Tries(attempt, 1))
    case Answered(x) => x
    case _ => NoResponse
  }

  /** The answer used is that of the last try, which is the first that was no transient reset, or the
      third. */
  ghost predicate IsLastTry(attempt: nat -> Attempt, r: Response, tries: nat) {
    && 1 <= tries <= 3 && (forall i: nat :: 1 <= i < tries ==> attempt(i).Reset?)
    && (tries < 3 ==> !attempt(tries).Reset?)
    && (attempt(tries).Answered? ==> r == attempt(tries).response)
    && (!attempt(tries).Answered? ==> r == NoResponse)
  }

  lemma SettlementIsLastTry(attempt: nat -> Attempt)
    ensures IsLastTry(attempt, Settlement(attempt), Tries(attempt, 1))
  {
    hide Tries;
  }

  method PostRaw(attempt: nat -> Attempt) returns (r: Response, tries: nat)
    ensures tries == Tries(attempt, 1) && r == Settlement(attempt)
    ensures IsLastTry(attempt, r, tries)
  {
    SettlementIsLastTry(attempt);
    tries := 1;
    while tries < MAX_TRIES && attempt(tries).Reset?
      invariant 1 <= tries <= MAX_TRIES && Tries(attempt, tries) == Tries(attempt, 1)
      decreases MAX_TRIES - tries
    {
      tries := tries + 1;
    }
    match attempt(tries) {
      case Answered(x) => r := x;
      case _ => r := NoResponse;
    }
  }

  // ---------------------------------------------------------------- the scan

  /** How a chat call or a health ping ends. */
  datatype Outcome =
    | Success(text: string)
    | TransportFailed
    | Rejected(status: nat)
    | Malformed
    | Exhausted(lastStatus: nat)

  datatype Decision = Stop(outcome: Outcome) | NextUrl | NextGroup

  /** What a response at a candidate leads to; moreUrls and moreGroups say what is left to try. A
      chat call reports a 5xx of the last group, a ping goes on past it. */
  function Decide(r: Response, moreUrls: bool, moreGroups: bool): Decision {
    match r
    case NoResponse => Stop(TransportFailed)
    case Http(status, parsed) =>
      if status == 404 && moreUrls then NextUrl
      else if 400 <= status < 500 then Stop(Rejected(status))
      else if status >= 500 then (if moreGroups then NextGroup else Stop(Exhausted(status)))
      else match parsed
      case BadJson => Stop(Malformed)
      case NoChoices => Stop(Malformed)
      case Reply(text) => Stop(Success(text))
  }

  /** A request sent: its group (model and route) and url, by position, and the response. */
  datatype Sent = Sent(group: nat, url: nat, response: Response)

  datatype Scanned = Scanned(outcome: Outcome, sent: seq<Sent>)

  /** The requests from candidate (g, u) on, when the t-th request gets response respond(t). */
  function Scan(respond: nat -> Response, groups: nat, urls: nat, g: nat, u: nat, t: nat): Scanned
    requires g < groups && u < urls
    decreases groups - g, urls - u
  {
    var r := respond(t);
    var here := Sent(g, u, r);
    match Decide(r, u + 1 < urls, g + 1 < groups)
    case Stop(o) => Scanned(o, [here])
    case NextUrl =>
      var rest := Scan(respond, groups, urls, g, u + 1, t + 1);
      rest.(sent := [here] + rest.sent)
    case NextGroup =>
      var rest := Scan(respond, groups, urls, g + 1, 0, t + 1);
      rest.(sent := [here] + rest.sent)
  }

  /** A request may follow another only after a 404, at the next url of the same group, or after a
      5xx, at the first url of the next group. */
  predicate MayFollow(a: Sent, b: Sent) {
    a.response.Http?
    && ( || (a.response.status == 404 && b.group == a.group && b.url == a.url + 1)
         || (a.response.status >= 500 && b.group == a.group + 1 && b.url == 0))
  }

  /** a comes before b in the order of groups, then urls. */
  predicate Before(a: Sent, b: Sent) {
    a.group < b.group || (a.group == b.group && a.url < b.url)
  }

  predicate Chained(sent: seq<Sent>) {
    forall i :: 0 <= i < |sent| - 1 ==> MayFollow(sent[i], sent[i + 1])
  }

  /** How the last response explains the outcome. */
  predicate Explains(last: Sent, o: Outcome) {
    match o
    case Success(text) => last.response.Http? && last.response.status < 400 && last.response.parsed == Reply(text)
    case TransportFailed => last.response.NoResponse?
    case Rejected(s) => last.response.Http? && last.response.status == s && 400 <= s < 500
    case Malformed => last.response.Http? && last.response.status < 400 && !last.response.parsed.Reply?
    case Exhausted(s) => last.response.Http? && last.response.status == s && s >= 500
  }

  predicate ServerError(s: Sent) {
    s.response.Http? && s.response.status >= 500
  }

  /** Request i is the (t + i)-th of the oracle and goes to a candidate. */
  predicate Answers(sent: seq<Sent>, respond: nat -> Response, t: nat, groups: nat, urls: nat) {
    forall i :: 0 <= i < |sent| ==>
      sent[i].group < groups && sent[i].url < urls && sent[i].response == respond(t + i)
  }

  lemma DecideSpec(g: nat, u: nat, r: Response, moreUrls: bool, moreGroups: bool)
    ensures match Decide(r, moreUrls, moreGroups)
            case Stop(o) => Explains(Sent(g, u, r), o) && (o.Exhausted? ==> !moreGroups) && (o == Rejected(404) ==> !moreUrls)
            case NextUrl => moreUrls && r.Http? && r.status == 404
            case NextGroup => moreGroups && r.Http? && r.status >= 500
  {
  }

  /** A scan from candidate (g, u) on: where it starts, how its requests follow each other, and how
      its outcome comes from the last one. */
  predicate IsTrail(x: Scanned, respond: nat -> Response, groups: nat, urls: nat, g: nat, u: nat, t: nat) {
    && x.sent != [] && x.sent[0] == Sent(g, u, respond(t)) && Chained(x.sent)
    && Answers(x.sent, respond, t, groups, urls)
    && Explains(x.sent[|x.sent| - 1], x.outcome)
    && (x.outcome.Exhausted? ==> x.sent[|x.sent| - 1].group == groups - 1)
    && (x.outcome == Rejected(404) ==> x.sent[|x.sent| - 1].url == urls - 1)
  }

  lemma ConsTrail(rest: Scanned, respond: nat -> Response, groups: nat, urls: nat, g: nat, u: nat, t: nat, g': nat, u': nat)
    requires IsTrail(rest, respond, groups, urls, g', u', t + 1) && g < groups && u < urls
    requires MayFollow(Sent(g, u, respond(t)), rest.sent[0])
    ensures IsTrail(Scanned(rest.outcome, [Sent(g, u, respond(t))] + rest.sent), respond, groups, urls, g, u, t)
  {
    hide MayFollow, Explains;
    var all := [Sent(g, u, respond(t))] + rest.sent;
    forall i | 0 <= i < |all| - 1 ensures MayFollow(all[i], all[i + 1]) {
      if i > 0 {
        assert MayFollow(rest.sent[i - 1], rest.sent[i]);
      }
    }
    forall i | 0 <= i < |all|
      ensures all[i].group < groups && all[i].url < urls && all[i].response == respond(t + i)
    {
      if i > 0 {
        assert all[i] == rest.sent[i - 1];
      }
    }
  }

  lemma {:induction false} ScanSpec(respond: nat -> Response, groups: nat, urls: nat, g: nat, u: nat, t: nat)
    requires g < groups && u < urls
    ensures IsTrail(Scan(respond, groups, urls, g, u, t), respond, groups, urls, g, u, t)
    decreases groups - g, urls - u
  {
    DecideSpec(g, u, respond(t), u + 1 < urls, g + 1 < groups);
    hide Decide, Explains, Chained, Answers;
    match Decide(respond(t), u + 1 < urls, g + 1 < groups) {
      case Stop(o) => OneRequest(respond, groups, urls, g, u, t, o);
      case NextUrl =>
        ScanSpec(respond, groups, urls, g, u + 1, t + 1);
        ConsTrail(Scan(respond, groups, urls, g, u + 1, t + 1), respond, groups, urls, g, u, t, g, u + 1);
      case NextGroup =>
        ScanSpec(respond, groups, urls, g + 1, 0, t + 1);
        ConsTrail(Scan(respond, groups, urls, g + 1, 0, t + 1), respond, groups, urls, g, u, t, g + 1, 0);
    }
    hide IsTrail;
  }

  lemma OneRequest(respond: nat -> Response, groups: nat, urls: nat, g: nat, u: nat, t: nat, o: Outcome)
    requires g < groups && u < urls && Explains(Sent(g, u, respond(t)), o)
    requires (o.Exhausted? ==> g + 1 == groups) && (o == Rejected(404) ==> u + 1 == urls)
    ensures IsTrail(Scanned(o, [Sent(g, u, respond(t))]), respond, groups, urls, g, u, t)
  {
  }

  lemma {:induction false} ChainedIsOrdered(sent: seq<Sent>, i: nat, j: nat)
    requires Chained(sent) && i < j < |sent|
    ensures Before(sent[i], sent[j])
  {
    assert MayFollow(sent[j - 1], sent[j]);
    if i < j - 1 {
      ChainedIsOrdered(sent, i, j - 1);
    }
  }

  /** The request that ends group k. */
  lemma {:induction false} GroupEnds(sent: seq<Sent>, last: nat, k: nat) returns (i: nat)
    requires Chained(sent) && sent != [] && sent[0].group == 0 && sent[|sent| - 1].group == last && k <= last
    ensures i < |sent| && sent[i].group == k && (i < |sent| - 1 ==> sent[i + 1].group == k + 1)
    ensures i == |sent| - 1 <==> k == last
    ensures i < |sent| - 1 ==> ServerError(sent[i])
    decreases |sent|
  {
    var n := |sent| - 1;
    if k == last {
      i := n;
    } else {
      assert n > 0 && MayFollow(sent[n - 1], sent[n]);
      if sent[n - 1].group == k {
        i := n - 1;
      } else {
        assert Chained(sent[..n]);
        i := GroupEnds(sent[..n], sent[n - 1].group, k);
        assert sent[..n][i] == sent[i] && sent[..n][i + 1] == sent[i + 1];
      }
    }
  }

  /** The whole call, for any responses: the requests follow the order of groups and urls without
      repeating one; a call succeeds only if its last request was answered below 400 with a choice;
      nothing is sent after a 4xx other than 404, nor after a lost response; a 404 is final only at the
      last url; and the candidates are exhausted only if every group ended in a 5xx. */
  lemma ScanRefinesOrder(respond: nat -> Response, groups: nat, urls: nat)
    requires groups > 0 && urls > 0
    ensures var x := Scan(respond, groups, urls, 0, 0, 0); var last := |x.sent| - 1;
            && last >= 0
            && (forall i, j :: 0 <= i < j <= last ==> Before(x.sent[i], x.sent[j]))
            && (forall i :: 0 <= i < last ==> MayFollow(x.sent[i], x.sent[i + 1]))
            && Explains(x.sent[last], x.outcome)
            && (x.outcome == Rejected(404) ==> x.sent[last].url == urls - 1)
            && (x.outcome.Exhausted? ==> forall k: nat :: k < groups ==> GroupFailed(x.sent, k))
  {
    ScanSpec(respond, groups, urls, 0, 0, 0);
    var x := Scan(respond, groups, urls, 0, 0, 0);
    forall i, j | 0 <= i < j < |x.sent| ensures Before(x.sent[i], x.sent[j]) {
      ChainedIsOrdered(x.sent, i, j);
    }
    if x.outcome.Exhausted? {
      forall k: nat | k < groups ensures GroupFailed(x.sent, k) {
        var i := GroupEnds(x.sent, groups - 1, k);
        assert EndsGroup(x.sent, i, k);
      }
    }
  }

  ghost predicate GroupFailed(sent: seq<Sent>, k: nat) {
    exists i :: 0 <= i < |sent| && EndsGroup(sent, i, k)
  }

  /** Request i is the last one of group k and was answered with a 5xx. */
  predicate EndsGroup(sent: seq<Sent>, i: nat, k: nat)
    requires i < |sent|
  {
    sent[i].group == k && ServerError(sent[i]) && (i + 1 < |sent| ==> sent[i + 1].group == k + 1)
  }
}
