/** The nested retry loops of internal/app_openclaw_chat.go: the chat call (lines 276-346) over
    routes and urls, and the health ping (lines 434-539) over models, routes and urls. */
module GatewayLoops {
  import opened Text
  import opened Options
  import opened GatewayFallback

  /** The fate of each try of each request of a call. */
  type Wire = (nat, nat) -> Attempt

  function TriesOf(wire: Wire, t: nat): nat -> Attempt {
    (k: nat) => wire(t, k)
  }

  /** What each request comes to. */
  function Settled(wire: Wire): nat -> Response {
    (t: nat) => Settlement(TriesOf(wire, t))
  }

  /** How often anything is sent for the first n requests. */
  function Posts(wire: Wire, n: nat): (p: nat)
    ensures n <= p <= MAX_TRIES * n
  {
    if n == 0 then 0 else Posts(wire, n - 1) + Tries(TriesOf(wire, n - 1), 1)
  }

  /** What a call reports; Incomplete is the message after the loops of a chat call. */
  datatype Result = MissingBase | MissingToken | NoUrl | Incomplete | Done(outcome: Outcome)

  /** The scan from the start is what was sent, followed by the scan from candidate (g, u). */
  ghost predicate Reached(respond: nat -> Response, groups: nat, urls: nat, sent: seq<Sent>, g: nat, u: nat)
    requires g < groups && u < urls
  {
    var rest := Scan(respond, groups, urls, g, u, |sent|);
    Scan(respond, groups, urls, 0, 0, 0) == Scanned(rest.outcome, sent + rest.sent)
  }

  lemma Start(respond: nat -> Response, groups: nat, urls: nat)
    requires groups > 0 && urls > 0
    ensures Reached(respond, groups, urls, [], 0, 0)
  {
    var x := Scan(respond, groups, urls, 0, 0, 0);
    assert [] + x.sent == x.sent;
  }

  /** One more request at the candidate reached. */
  lemma Advance(respond: nat -> Response, groups: nat, urls: nat, sent: seq<Sent>, g: nat, u: nat)
    requires g < groups && u < urls && Reached(respond, groups, urls, sent, g, u)
    ensures var r := respond(|sent|); var more := sent + [Sent(g, u, r)];
            match Decide(r, u + 1 < urls, g + 1 < groups)
            case Stop(o) => Scan(respond, groups, urls, 0, 0, 0) == Scanned(o, more)
            case NextUrl => u + 1 < urls && Reached(respond, groups, urls, more, g, u + 1)
            case NextGroup => g + 1 < groups && Reached(respond, groups, urls, more, g + 1, 0)
  {
    var r := respond(|sent|);
    var here := Sent(g, u, r);
    DecideSpec(g, u, r, u + 1 < urls, g + 1 < groups);
    hide Decide;
    match Decide(r, u + 1 < urls, g + 1 < groups) {
      case Stop(_) =>
      case NextUrl =>
        var rest := Scan(respond, groups, urls, g, u + 1, |sent| + 1);
        assert sent + ([here] + rest.sent) == (sent + [here]) + rest.sent;
      case NextGroup =>
        var rest := Scan(respond, groups, urls, g + 1, 0, |sent| + 1);
        assert sent + ([here] + rest.sent) == (sent + [here]) + rest.sent;
    }
  }

  /** Everything a run of the loops promises about the requests it sent and its outcome. */
  ghost predicate IsRun(respond: nat -> Response, groups: nat, urls: nat, sent: seq<Sent>, o: Outcome) {
    groups > 0 && urls > 0 && Scan(respond, groups, urls, 0, 0, 0) == Scanned(o, sent)
  }

  /** What a request is: the model in its body and header, and the url it is posted to. */
  datatype Asked = Asked(route: Route, url: string)

  /** Every request goes to the route of its group and to its url. */
  ghost predicate GoesTo(asked: seq<Asked>, sent: seq<Sent>, routing: seq<Route>, urls: seq<string>) {
    && |asked| == |sent|
    && forall i :: 0 <= i < |sent| ==>
         && sent[i].group < |routing| && sent[i].url < |urls|
         && asked[i] == Asked(routing[sent[i].group], urls[sent[i].url])
  }

  lemma OneMoreGoes(asked: seq<Asked>, sent: seq<Sent>, routing: seq<Route>, urls: seq<string>, x: Sent)
    requires GoesTo(asked, sent, routing, urls) && x.group < |routing| && x.url < |urls|
    ensures GoesTo(asked + [Asked(routing[x.group], urls[x.url])], sent + [x], routing, urls)
  {
  }

  lemma NothingGoes(routing: seq<Route>, urls: seq<string>)
    ensures GoesTo([], [], routing, urls)
  {
  }

  method PostChatCompletions(wire: Wire, baseUrl: string, gateway: bool, bearer: string, model: string)
    returns (result: Result, sent: seq<Sent>, asked: seq<Asked>, posts: nat)
    ensures result == MissingBase <==> Base(baseUrl) == ""
    ensures result == MissingToken <==> Base(baseUrl) != "" && Trim(bearer) == ""
    ensures result.Done? <==> Base(baseUrl) != "" && Trim(bearer) != ""
    ensures !result.Done? ==> sent == []
    ensures result.Done? ==>
              IsRun(Settled(wire), |Routes(ModelOrDefault(model), gateway)|, |Urls(baseUrl, gateway)|, sent, result.outcome)
    ensures GoesTo(asked, sent, Routes(ModelOrDefault(model), gateway), Urls(baseUrl, gateway))
    ensures posts == Posts(wire, |sent|)
  {
    hide Base, Trim, Scan, Reached, GoesTo, Routes, Urls, ModelOrDefault, Settlement, Tries;
    sent, asked, posts := [], [], 0;
    NothingGoes(Routes(ModelOrDefault(model), gateway), Urls(baseUrl, gateway));
    if Base(baseUrl) == "" {
      return MissingBase, sent, asked, posts;
    }
    if Trim(bearer) == "" {
      return MissingToken, sent, asked, posts;
    }
    ghost var respond := Settled(wire);
    var urls, routing := Urls(baseUrl, gateway), Routes(ModelOrDefault(model), gateway);
    CandidatesSpec(baseUrl, gateway, ModelOrDefault(model));
    if urls == [] {
      assert false;
      return NoUrl, sent, asked, posts;
    }
    Start(respond, |routing|, |urls|);
    var g := 0;
    while g < |routing|
      invariant g < |routing| && Reached(respond, |routing|, |urls|, sent, g, 0)
      invariant posts == Posts(wire, |sent|) && GoesTo(asked, sent, routing, urls)
    {
      var u := 0;
      while u < |urls|
        invariant u < |urls| && Reached(respond, |routing|, |urls|, sent, g, u)
        invariant posts == Posts(wire, |sent|) && GoesTo(asked, sent, routing, urls)
      {
        var r, tries := PostRaw(TriesOf(wire, |sent|));
        Advance(respond, |routing|, |urls|, sent, g, u);
        OneMoreGoes(asked, sent, routing, urls, Sent(g, u, r));
        sent, asked, posts := sent + [Sent(g, u, r)], asked + [Asked(routing[g], urls[u])], posts + tries;
        match r {
          case NoResponse =>
            return Done(TransportFailed), sent, asked, posts;
          case Http(status, parsed) =>
            if status == 404 && u + 1 < |urls| {
              u := u + 1;
              continue;
            }
            if status >= 400 {
              if status == 404 {
                return Done(Rejected(404)), sent, asked, posts;
              }
              if g + 1 < |routing| && status >= 500 {
                break;
              }
              return Done(if status >= 500 then Exhausted(status) else Rejected(status)), sent, asked, posts;
            }
            if !parsed.Reply? {
              return Done(Malformed), sent, asked, posts;
            }
            return Done(Success(parsed.text)), sent, asked, posts;
        }
      }
      g := g + 1;
    }
    assert false;
    return Incomplete, sent, asked, posts;
  }

  // ---------------------------------------------------------------- the health ping

  /** The routes of the first k models, which the ping walks through one after the other. */
  function RoutesBefore(models: seq<string>, gateway: bool, k: nat): (n: nat)
    requires k <= |models|
    ensures n >= k
  {
    if k == 0 then 0
    else
      CandidatesSpec("", gateway, models[k - 1]);
      RoutesBefore(models, gateway, k - 1) + |Routes(models[k - 1], gateway)|
  }

  function AllRoutes(models: seq<string>, gateway: bool): nat {
    RoutesBefore(models, gateway, |models|)
  }

  /** The routes of the first k models. */
  function RoutesUpTo(models: seq<string>, gateway: bool, k: nat): (r: seq<Route>)
    requires k <= |models|
    ensures |r| == RoutesBefore(models, gateway, k)
  {
    if k == 0 then [] else RoutesUpTo(models, gateway, k - 1) + Routes(models[k - 1], gateway)
  }

  /** The group of a (model, route) pair is asked for that route. */
  lemma {:induction false} RouteOfGroup(models: seq<string>, gateway: bool, k: nat, mi: nat, ri: nat)
    requires mi < k <= |models| && ri < |Routes(models[mi], gateway)|
    ensures RoutesBefore(models, gateway, mi) + ri < RoutesBefore(models, gateway, k)
    ensures RoutesUpTo(models, gateway, k)[RoutesBefore(models, gateway, mi) + ri] == Routes(models[mi], gateway)[ri]
  {
    hide Routes;
    if mi < k - 1 {
      RouteOfGroup(models, gateway, k - 1, mi, ri);
    }
  }

  /** Every (model, route) pair has its own place among the groups. */
  lemma {:induction false} RoutesBeforeGrows(models: seq<string>, gateway: bool, j: nat, k: nat)
    requires j <= k <= |models|
    ensures RoutesBefore(models, gateway, j) <= RoutesBefore(models, gateway, k)
  {
    if j < k {
      RoutesBeforeGrows(models, gateway, j, k - 1);
    }
  }

  /** The loops have come to candidate (g, 0), or past the last group with a last 5xx. */
  ghost predicate AtGroup(respond: nat -> Response, groups: nat, urls: nat, sent: seq<Sent>, g: nat, lastStatus: nat)
    requires groups > 0 && urls > 0
  {
    if g < groups then Reached(respond, groups, urls, sent, g, 0)
    else Scan(respond, groups, urls, 0, 0, 0) == Scanned(Exhausted(lastStatus), sent)
  }

  /** One more request of the ping. */
  lemma PingStep(respond: nat -> Response, groups: nat, urls: nat, sent: seq<Sent>, g: nat, u: nat)
    requires g < groups && u < urls && Reached(respond, groups, urls, sent, g, u)
    ensures var r := respond(|sent|); var more := sent + [Sent(g, u, r)];
            match r
            case NoResponse => IsRun(respond, groups, urls, more, TransportFailed)
            case Http(st, parsed) =>
              if st == 404 && u + 1 < urls then Reached(respond, groups, urls, more, g, u + 1)
              else if st >= 500 then AtGroup(respond, groups, urls, more, g + 1, st)
              else IsRun(respond, groups, urls, more,
                         if st >= 400 then Rejected(st) else if parsed.Reply? then Success(parsed.text) else Malformed)
  {
    Advance(respond, groups, urls, sent, g, u);
    hide Scan, Reached;
  }

  /** The innermost loop of the ping: the urls of one model and route, up to a result or a 5xx. */
  method PingRoute(wire: Wire, ghost all: seq<Route>, route: Route, urls: seq<string>, before: seq<Sent>, askedBefore: seq<Asked>,
                   g: nat)
    returns (result: Option<Outcome>, sent: seq<Sent>, asked: seq<Asked>, lastStatus: nat, posts: nat)
    requires g < |all| && all[g] == route && urls != [] && Reached(Settled(wire), |all|, |urls|, before, g, 0)
    requires GoesTo(askedBefore, before, all, urls)
    ensures GoesTo(asked, sent, all, urls)
    ensures Posts(wire, |before|) + posts == Posts(wire, |sent|)
    ensures result.None? ==> AtGroup(Settled(wire), |all|, |urls|, sent, g + 1, lastStatus)
    ensures result.Some? ==>
              && IsRun(Settled(wire), |all|, |urls|, sent, result.value) && !result.value.Exhausted?
              && sent != [] && sent[|sent| - 1].group == g
  {
    hide Scan, Reached, GoesTo, AtGroup, IsRun, Settlement, Tries;
    ghost var respond := Settled(wire);
    sent, asked, lastStatus, posts := before, askedBefore, 0, 0;
    var u := 0;
    while u < |urls|
      invariant u < |urls| && Reached(respond, |all|, |urls|, sent, g, u)
      invariant Posts(wire, |before|) + posts == Posts(wire, |sent|) && GoesTo(asked, sent, all, urls)
    {
      var r, tries := PostRaw(TriesOf(wire, |sent|));
      PingStep(respond, |all|, |urls|, sent, g, u);
      OneMoreGoes(asked, sent, all, urls, Sent(g, u, r));
      sent, asked, posts := sent + [Sent(g, u, r)], asked + [Asked(route, urls[u])], posts + tries;
      match r {
        case NoResponse =>
          result := Some(TransportFailed);
          return;
        case Http(status, parsed) =>
          lastStatus := status;
          if status == 404 && u + 1 < |urls| {
            u := u + 1;
            continue;
          }
          if 400 <= status < 500 {
            result := Some(Rejected(status));
            return;
          }
          if status >= 500 {
            break;
          }
          if !parsed.Reply? {
            result := Some(Malformed);
            return;
          }
          result := Some(Success(parsed.text));
          return;
      }
    }
    result := None;
  }

  /** The middle loop of the ping: the routes of one model, of which first come before. */
  method PingModel(wire: Wire, ghost all: seq<Route>, urls: seq<string>, routing: seq<Route>, first: nat, before: seq<Sent>,
                   askedBefore: seq<Asked>, before5xx: nat)
    returns (result: Option<Outcome>, sent: seq<Sent>, asked: seq<Asked>, lastStatus: nat, posts: nat, ri: nat)
    requires first + |routing| <= |all| && all != [] && urls != []
    requires forall i :: 0 <= i < |routing| ==> all[first + i] == routing[i]
    requires GoesTo(askedBefore, before, all, urls)
    ensures GoesTo(asked, sent, all, urls)
    requires AtGroup(Settled(wire), |all|, |urls|, before, first, before5xx)
    ensures Posts(wire, |before|) + posts == Posts(wire, |sent|)
    ensures result.None? ==> AtGroup(Settled(wire), |all|, |urls|, sent, first + |routing|, lastStatus)
    ensures result.Some? ==>
              && IsRun(Settled(wire), |all|, |urls|, sent, result.value) && !result.value.Exhausted?
              && ri < |routing| && sent != [] && sent[|sent| - 1].group == first + ri
  {
    hide Reached, GoesTo, AtGroup, IsRun, Settled, Posts;
    result, sent, asked, lastStatus, posts, ri := None, before, askedBefore, before5xx, 0, 0;
    while ri < |routing|
      invariant result.None? && ri <= |routing| && Posts(wire, |before|) + posts == Posts(wire, |sent|)
      invariant GoesTo(asked, sent, all, urls)
      invariant AtGroup(Settled(wire), |all|, |urls|, sent, first + ri, lastStatus)
    {
      EnterGroup(Settled(wire), |all|, |urls|, sent, first + ri, lastStatus);
      var more;
      result, sent, asked, lastStatus, more := PingRoute(wire, all, routing[ri], urls, sent, asked, first + ri);
      posts := posts + more;
      if result.Some? {
        return;
      }
      ri := ri + 1;
    }
  }

  lemma OneModel(models: seq<string>, gateway: bool, mi: nat)
    requires mi < |models|
    ensures RoutesBefore(models, gateway, mi + 1) == RoutesBefore(models, gateway, mi) + |Routes(models[mi], gateway)|
    ensures RoutesBefore(models, gateway, mi + 1) <= AllRoutes(models, gateway)
    ensures RoutesBefore(models, gateway, 0) == 0 && AllRoutes(models, gateway) > 0
    ensures forall i :: 0 <= i < |Routes(models[mi], gateway)| ==>
              RoutesUpTo(models, gateway, |models|)[RoutesBefore(models, gateway, mi) + i] == Routes(models[mi], gateway)[i]
  {
    RoutesBeforeGrows(models, gateway, mi + 1, |models|);
    hide Routes;
    forall i | 0 <= i < |Routes(models[mi], gateway)|
      ensures RoutesUpTo(models, gateway, |models|)[RoutesBefore(models, gateway, mi) + i] == Routes(models[mi], gateway)[i]
    {
      RouteOfGroup(models, gateway, |models|, mi, i);
    }
  }

  method GatewayHealthChatPing(wire: Wire, baseUrl: string, gateway: bool, bearer: string, model: string)
    returns (result: Result, sent: seq<Sent>, asked: seq<Asked>, mi: nat, ri: nat, posts: nat)
    ensures result == MissingBase <==> Base(baseUrl) == ""
    ensures result == MissingToken <==> Base(baseUrl) != "" && Trim(bearer) == ""
    ensures result.Done? <==> Base(baseUrl) != "" && Trim(bearer) != ""
    ensures !result.Done? ==> sent == []
    ensures result.Done? ==>
              IsRun(Settled(wire), AllRoutes(PingModels(model), gateway), |Urls(baseUrl, gateway)|, sent, result.outcome)
    ensures result.Done? && !result.outcome.Exhausted? ==>
              && mi < |PingModels(model)| && ri < |Routes(PingModels(model)[mi], gateway)| && sent != []
              && sent[|sent| - 1].group == RoutesBefore(PingModels(model), gateway, mi) + ri
    ensures GoesTo(asked, sent, RoutesUpTo(PingModels(model), gateway, |PingModels(model)|), Urls(baseUrl, gateway))
    ensures posts == Posts(wire, |sent|)
  {
    hide Base, Trim, Routes, Urls, PingModels, AtGroup, IsRun, Settled, Posts, RoutesBefore, RoutesUpTo, GoesTo;
    NoPosts(wire);
    sent, asked, mi, ri, posts := [], [], 0, 0, 0;
    NothingGoes(RoutesUpTo(PingModels(model), gateway, |PingModels(model)|), Urls(baseUrl, gateway));
    if Base(baseUrl) == "" {
      result := MissingBase;
      return;
    }
    if Trim(bearer) == "" {
      result := MissingToken;
      return;
    }
    var models, urls := PingModels(model), Urls(baseUrl, gateway);
    CandidatesSpec(baseUrl, gateway, model);
    PingModelsSpec(model);
    OneModel(models, gateway, 0);
    ghost var all := RoutesUpTo(models, gateway, |models|);
    ghost var groups := |all|;
    StartPing(Settled(wire), groups, |urls|);
    var lastStatus := 0;
    while mi < |models|
      invariant mi <= |models| && posts == Posts(wire, |sent|) && GoesTo(asked, sent, all, urls)
      invariant AtGroup(Settled(wire), groups, |urls|, sent, RoutesBefore(models, gateway, mi), lastStatus)
    {
      var routing := Routes(models[mi], gateway);
      OneModel(models, gateway, mi);
      var stopped, more;
      stopped, sent, asked, lastStatus, more, ri :=
        PingModel(wire, all, urls, routing, RoutesBefore(models, gateway, mi), sent, asked, lastStatus);
      posts := posts + more;
      if stopped.Some? {
        result := Done(stopped.value);
        return;
      }
      mi := mi + 1;
    }
    result := Done(Exhausted(lastStatus));
    FinishPing(Settled(wire), groups, |urls|, sent, lastStatus);
  }

  lemma StartPing(respond: nat -> Response, groups: nat, urls: nat)
    requires groups > 0 && urls > 0
    ensures AtGroup(respond, groups, urls, [], 0, 0)
  {
    Start(respond, groups, urls);
  }

  lemma EnterGroup(respond: nat -> Response, groups: nat, urls: nat, sent: seq<Sent>, g: nat, lastStatus: nat)
    requires g < groups && urls > 0 && AtGroup(respond, groups, urls, sent, g, lastStatus)
    ensures Reached(respond, groups, urls, sent, g, 0)
  {
  }

  lemma FinishPing(respond: nat -> Response, groups: nat, urls: nat, sent: seq<Sent>, lastStatus: nat)
    requires groups > 0 && urls > 0 && AtGroup(respond, groups, urls, sent, groups, lastStatus)
    ensures IsRun(respond, groups, urls, sent, Exhausted(lastStatus))
  {
  }

  /** A run of either call, by its requests alone: no candidate is tried twice or out of order,
      success needs a choice answered below 400 to the last request, nothing follows a 4xx other
      than a 404 or a lost response, a 404 is final only at the last url, and the candidates are exhausted only if every group failed. */
  lemma RunIsOrdered(respond: nat -> Response, groups: nat, urls: nat, sent: seq<Sent>, o: Outcome)
    requires IsRun(respond, groups, urls, sent, o)
    ensures sent != [] && Explains(sent[|sent| - 1], o)
    ensures forall i, j :: 0 <= i < j < |sent| ==> Before(sent[i], sent[j])
    ensures forall i :: 0 <= i < |sent| - 1 ==> MayFollow(sent[i], sent[i + 1])
    ensures o == Rejected(404) ==> sent[|sent| - 1].url == urls - 1
    ensures o.Exhausted? ==> forall k: nat :: k < groups ==> GroupFailed(sent, k)
  {
    ScanRefinesOrder(respond, groups, urls);
  }

  /** A ping that falls through has ended every model and route in a 5xx, and knows them apart. */
  lemma PingFallsThrough(respond: nat -> Response, models: seq<string>, gateway: bool, urls: nat, sent: seq<Sent>,
                         status: nat, mi: nat, ri: nat)
    requires IsRun(respond, AllRoutes(models, gateway), urls, sent, Exhausted(status))
    requires mi < |models| && ri < |Routes(models[mi], gateway)|
    ensures GroupFailed(sent, RoutesBefore(models, gateway, mi) + ri)
  {
    hide Routes;
    RoutesBeforeGrows(models, gateway, mi + 1, |models|);
    assert RoutesBefore(models, gateway, mi) + ri < AllRoutes(models, gateway);
    RunIsOrdered(respond, AllRoutes(models, gateway), urls, sent, Exhausted(status));
  }

  lemma {:induction false} GroupsAreApart(models: seq<string>, gateway: bool, mi: nat, ri: nat, mj: nat, rj: nat)
    requires mi < |models| && ri < |Routes(models[mi], gateway)|
    requires mj < |models| && rj < |Routes(models[mj], gateway)|
    requires RoutesBefore(models, gateway, mi) + ri == RoutesBefore(models, gateway, mj) + rj
    ensures mi == mj && ri == rj
  {
    hide Routes;
    if mi < mj {
      RoutesBeforeGrows(models, gateway, mi + 1, mj);
    } else if mj < mi {
      RoutesBeforeGrows(models, gateway, mj + 1, mi);
    }
  }

  lemma NoPosts(wire: Wire)
    ensures Posts(wire, 0) == 0
  {
  }

  /** The candidates of n groups. */
  function Room(n: nat, urls: nat): (r: nat)
    ensures r == n * urls
  {
    if n == 0 then 0 else Room(n - 1, urls) + urls
  }

  lemma {:induction false} ScanLength(respond: nat -> Response, groups: nat, urls: nat, g: nat, u: nat, t: nat)
    requires g < groups && u < urls
    ensures |Scan(respond, groups, urls, g, u, t).sent| <= Room(groups - g, urls) - u
    decreases groups - g, urls - u
  {
    DecideSpec(g, u, respond(t), u + 1 < urls, g + 1 < groups);
    hide Decide;
    match Decide(respond(t), u + 1 < urls, g + 1 < groups) {
      case Stop(_) =>
      case NextUrl => ScanLength(respond, groups, urls, g, u + 1, t + 1);
      case NextGroup => ScanLength(respond, groups, urls, g + 1, 0, t + 1);
    }
  }

  /** A whole call asks each candidate at most once, and sends at most three times for each. */
  lemma PostsAreBounded(wire: Wire, groups: nat, urls: nat, sent: seq<Sent>, o: Outcome)
    requires IsRun(Settled(wire), groups, urls, sent, o)
    ensures |sent| <= groups * urls && Posts(wire, |sent|) <= MAX_TRIES * (groups * urls)
  {
    ScanLength(Settled(wire), groups, urls, 0, 0, 0);
    hide Scan, Settled;
  }

  /** Request i of a run came to what its last try on the wire brought. */
  lemma RequestOnTheWire(wire: Wire, groups: nat, urls: nat, sent: seq<Sent>, o: Outcome, i: nat) returns (k: nat)
    requires IsRun(Settled(wire), groups, urls, sent, o) && i < |sent|
    ensures k >= 1 && IsLastTry(TriesOf(wire, i), sent[i].response, k)
  {
    ScanSpec(Settled(wire), groups, urls, 0, 0, 0);
    SettlementIsLastTry(TriesOf(wire, i));
    k := Tries(TriesOf(wire, i), 1);
    hide Scan, Chained, Explains, Settlement, Tries, IsLastTry;
    assert sent[i].response == Settled(wire)(0 + i);
  }

  /** The outcome of a call or ping, on the wire: a success is the text of an answer below 400 to the
      last try of the last request; a transport failure means that this try was not answered. */
  lemma OutcomeOnTheWire(wire: Wire, groups: nat, urls: nat, sent: seq<Sent>, o: Outcome) returns (k: nat)
    requires IsRun(Settled(wire), groups, urls, sent, o)
    ensures sent != [] && 1 <= k <= 3
    ensures var t := |sent| - 1; var last := wire(t, k);
            && (forall i: nat :: 1 <= i < k ==> wire(t, i).Reset?) && (k < 3 ==> !last.Reset?)
            && (o.Success? ==> exists s: nat :: s < 400 && last == Answered(Http(s, Reply(o.text))))
            && (o.Rejected? ==> last.Answered? && last.response.Http? && last.response.status == o.status && 400 <= o.status < 500)
            && (o.Exhausted? ==> last.Answered? && last.response.Http? && last.response.status == o.lastStatus >= 500)
            && (o.TransportFailed? <==> !last.Answered? || last.response.NoResponse?)
  {
    ScanSpec(Settled(wire), groups, urls, 0, 0, 0);
    hide Scan, Chained, Answers;
    var t := |sent| - 1;
    k := RequestOnTheWire(wire, groups, urls, sent, o, t);
    assert forall i: nat :: TriesOf(wire, t)(i) == wire(t, i);
    if o.Success? {
      var r := sent[t].response;
      assert wire(t, k) == Answered(Http(r.status, Reply(o.text)));
    }
  }
}
