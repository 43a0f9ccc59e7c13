/** The caching writer and middleware: internal/api_response_cache.go, lines 44-52 and 88-166. */
module ResponseCacheRuns {
  import opened Text
  import opened Options
  import opened ResponseCache

  // ---------------------------------------------------------------- the writer

  /** What a handler does to the response. */
  datatype Action = Header(code: nat) | Chunk(bytes: string)

  /** The whole body a handler sends. */
  function Body(actions: seq<Action>): string {
    if actions == [] then "" else
      var rest, last := Body(actions[..|actions| - 1]), actions[|actions| - 1];
      if last.Chunk? then rest + last.bytes else rest
  }

  /** The status the writer records: the last one set, or 200 from the first byte on. */
  function Status(actions: seq<Action>): nat {
    if actions == [] then 0 else
      var rest, last := Status(actions[..|actions| - 1]), actions[|actions| - 1];
      if last.Header? then last.code else if rest == 0 then 200 else rest
  }

  lemma {:induction false} BodyIsInOrder(a: seq<Action>, b: seq<Action>)
    ensures Body(a + b) == Body(a) + Body(b)
    decreases |b|
  {
    if b == [] {
      assert a + b == a;
    } else {
      var all := a + b;
      assert all[..|all| - 1] == a + b[..|b| - 1] && all[|all| - 1] == b[|b| - 1];
      BodyIsInOrder(a, b[..|b| - 1]);
    }
  }

  lemma BodyOfOne(a: Action)
    ensures Body([a]) == if a.Chunk? then a.bytes else ""
  {
    assert [a][..0] == [] && Body([]) == "";
  }

  /** The last status set counts; without one, 200 as soon as a byte is sent. */
  lemma {:induction false} StatusMeans(actions: seq<Action>, i: nat)
    requires i <= |actions| && forall k :: i <= k < |actions| ==> actions[k].Chunk?
    ensures i > 0 && actions[i - 1].Header? && actions[i - 1].code != 0 ==> Status(actions) == actions[i - 1].code
    ensures i == 0 ==> Status(actions) == if actions == [] then 0 else 200
    decreases |actions|
  {
    if i < |actions| {
      StatusMeans(actions[..|actions| - 1], i);
    }
  }

  /** The response writer: the copy for the cache, and what has been sent. */
  class ResponseWriter {
    const max: nat
    var status: nat
    var buf: string
    var sent: string

    constructor (max: nat)
      ensures this.max == max && status == 0 && buf == "" && sent == ""
    {
      this.max := max;
      status, buf, sent := 0, "", "";
    }

    /** The copy is complete while it is short; once it is not, neither is the body. */
    predicate Valid()
      reads this
    {
      if |buf| < max then buf == sent else |sent| >= max
    }

    method WriteHeader(code: nat)
      modifies this`status
      ensures status == code
    {
      status := code;
    }

    method Write(b: string)
      requires Valid()
      modifies this`status, this`buf, this`sent
      ensures Valid() && sent == old(sent) + b
      ensures status == if old(status) == 0 then 200 else old(status)
    {
      if status == 0 {
        status := 200;
      }
      if |buf| < max {
        buf := buf + b;
      }
      sent := sent + b;
    }
  }

  // ---------------------------------------------------------------- requests

  /** A request, the state of its surroundings and what its handler does. seen says whether Redis,
      which may lose an entry at any time, still has the entry asked for. */
  datatype Request = Request(
    isGet: bool, noCache: bool, enabled: bool, redis: bool, seen: bool, stored: bool,
    role: string, path: string, query: string, time: nat, max: nat,
    actions: seq<Action>, contentType: string)

  /** A cached body and the time it expires. */
  datatype Entry = Entry(body: string, expires: nat)

  type Store = map<string, Entry>

  /** What is hashed for the cache key. */
  function KeyText(role: string, path: string, query: string): string {
    Trim(role) + "\0" + path + "\0" + query
  }

  /** The cache key hash. */
  type Hash = string -> string

  predicate Cacheable(r: Request) {
    r.enabled && r.isGet && !r.noCache && Ttl(r.path) > 0 && r.redis
  }

  /** A response is worth caching: status 200, JSON, neither empty nor too long. */
  predicate Qualifies(r: Request) {
    && Status(r.actions) == 200 && 0 < |Body(r.actions)| < r.max
    && Contains(Lower(r.contentType), "json")
  }

  function KeyOf(r: Request, h: Hash): string {
    h(KeyText(r.role, r.path, r.query))
  }

  /** The cached body a request is answered with. */
  function Hit(s: Store, r: Request, h: Hash): Option<string> {
    var k := KeyOf(r, h);
    if Cacheable(r) && r.seen && k in s && r.time < s[k].expires && Trim(s[k].body) != "" then Some(s[k].body) else None
  }

  function Answer(s: Store, r: Request, h: Hash): string {
    match Hit(s, r, h)
    case Some(b) => b
    case None => Body(r.actions)
  }

  /** The store after a request: a miss whose response qualifies stores its whole body. */
  function After(s: Store, r: Request, h: Hash): Store {
    if Hit(s, r, h).None? && Cacheable(r) && Qualifies(r) && r.stored
    then s[KeyOf(r, h) := Entry(Body(r.actions), r.time + Ttl(r.path))]
    else s
  }

  /** The process's connection to the cache. */
  class Middleware {
    var store: Store

    constructor ()
      ensures store == map[]
    {
      store := map[];
    }

    /** Runs the handler behind a caching writer. */
    method Record(r: Request) returns (w: ResponseWriter)
      ensures fresh(w) && w.Valid() && w.max == r.max
      ensures w.sent == Body(r.actions) && w.status == Status(r.actions)
    {
      w := new ResponseWriter(r.max);
      for i := 0 to |r.actions|
        invariant fresh(w) && w.Valid() && w.max == r.max
        invariant w.sent == Body(r.actions[..i]) && w.status == Status(r.actions[..i])
      {
        assert r.actions[..i + 1][..i] == r.actions[..i];
        match r.actions[i] {
          case Header(code) => w.WriteHeader(code);
          case Chunk(b) => w.Write(b);
        }
      }
      assert r.actions[..|r.actions|] == r.actions;
    }

    /** One request: for any sequence of chunks, the store changes exactly as After says, so a body
        is stored only whole. */
    method Handle(r: Request, h: Hash) returns (body: string, hit: bool)
      modifies this
      ensures store == After(old(store), r, h)
      ensures body == Answer(old(store), r, h) && (hit <==> Hit(old(store), r, h).Some?)
      ensures var key := h(Trim(r.role) + "\0" + r.path + "\0" + r.query);
              var served := r.enabled && r.isGet && !r.noCache && Ttl(r.path) > 0 && r.redis;
              && (hit <==> && served && r.seen && key in old(store) && r.time < old(store)[key].expires
                           && Trim(old(store)[key].body) != "")
              && body == (if hit then old(store)[key].body else Body(r.actions))
              && store == (if && served && !hit && r.stored && Status(r.actions) == 200 && 0 < |Body(r.actions)| < r.max
                              && Contains(Lower(r.contentType), "json")
                           then old(store)[key := Entry(Body(r.actions), r.time + Ttl(r.path))]
                           else old(store))
    {
      hide Body, Status, Trim, Contains, Lower, Ttl;
      hit := false;
      if !r.enabled || !r.isGet || r.noCache || Ttl(r.path) <= 0 || !r.redis {
        var plain := Record(r);
        return plain.sent, false;
      }
      var key := KeyOf(r, h);
      if r.seen && key in store && r.time < store[key].expires && Trim(store[key].body) != "" {
        return store[key].body, true;
      }
      var w := Record(r);
      body := w.sent;
      if w.status != 200 || |w.buf| == 0 || |w.buf| >= r.max {
        return;
      }
      if !Contains(Lower(r.contentType), "json") {
        return;
      }
      if r.stored {
        store := store[key := Entry(w.buf, r.time + Ttl(r.path))];
      }
    }
  }

  // ---------------------------------------------------------------- keys

  lemma NulSplit(a: string, b: string, c: string, d: string)
    requires Free(a, '\0') && Free(c, '\0') && a + "\0" + b == c + "\0" + d
    ensures a == c && b == d
  {
    SplitHead(a, '\0', b);
    SplitHead(c, '\0', d);
    var s, t := a + "\0" + b, c + "\0" + d;
    assert s == t && Split(s, '\0')[0] == a && Split(t, '\0')[0] == c;
    assert s[|a| + 1..] == b && t[|c| + 1..] == d;
  }

  lemma LastNulSplit(a: string, b: string, c: string, d: string)
    requires Free(b, '\0') && Free(d, '\0') && a + "\0" + b == c + "\0" + d
    ensures a == c && b == d
  {
    var s, t := a + "\0" + b, c + "\0" + d;
    assert s[|a|] == '\0' && t[|c|] == '\0';
    assert |b| == |d|;
    assert s[..|a|] == a && t[..|c|] == c && s[|a| + 1..] == b && t[|c| + 1..] == d;
  }

  /** Requests with the same key text have the same role, path and query, even if the decoded path
      holds a NUL: neither a role nor a raw query does. */
  lemma KeyTextInjective(role: string, path: string, query: string, role': string, path': string, query': string)
    requires KeyText(role, path, query) == KeyText(role', path', query')
    requires Free(Trim(role), '\0') && Free(Trim(role'), '\0') && Free(query, '\0') && Free(query', '\0')
    ensures Trim(role) == Trim(role') && path == path' && query == query'
  {
    hide Trim;
    var x, y := Trim(role), Trim(role');
    assert x + "\0" + path + "\0" + query == x + "\0" + (path + "\0" + query);
    assert y + "\0" + path' + "\0" + query' == y + "\0" + (path' + "\0" + query');
    NulSplit(x, path + "\0" + query, y, path' + "\0" + query');
    LastNulSplit(path, query, path', query');
  }

  // ---------------------------------------------------------------- runs

  function StoreAfter(rs: seq<Request>, h: Hash): Store {
    if rs == [] then map[] else After(StoreAfter(rs[..|rs| - 1], h), rs[|rs| - 1], h)
  }

  /** The hash has no collision, requests come in time order, and roles and queries hold no NUL. */
  ghost predicate Regular(rs: seq<Request>, h: Hash) {
    && (forall a, b :: h(a) == h(b) ==> a == b)
    && (forall i, j :: 0 <= i <= j < |rs| ==> rs[i].time <= rs[j].time)
    && (forall i :: 0 <= i < |rs| ==> Free(Trim(rs[i].role), '\0') && Free(rs[i].query, '\0'))
  }

  /** Request i put the entry under its key. */
  predicate StoredBy(rs: seq<Request>, h: Hash, i: nat, key: string, e: Entry)
    requires i < |rs|
  {
    && KeyOf(rs[i], h) == key && Cacheable(rs[i]) && Qualifies(rs[i])
    && Hit(StoreAfter(rs[..i], h), rs[i], h).None?
    && e == Entry(Body(rs[i].actions), rs[i].time + Ttl(rs[i].path))
  }

  lemma {:induction false} EntryOrigin(rs: seq<Request>, h: Hash, key: string)
    requires key in StoreAfter(rs, h)
    ensures exists i :: 0 <= i < |rs| && StoredBy(rs, h, i, key, StoreAfter(rs, h)[key])
  {
    hide Cacheable, Qualifies, Hit, Body, Ttl, KeyOf;
    var n := |rs| - 1;
    var before := StoreAfter(rs[..n], h);
    if key in before && StoreAfter(rs, h)[key] == before[key] {
      EntryOrigin(rs[..n], h, key);
      var i :| 0 <= i < n && StoredBy(rs[..n], h, i, key, before[key]);
      assert rs[..n][..i] == rs[..i];
      assert StoredBy(rs, h, i, key, StoreAfter(rs, h)[key]);
    } else {
      assert StoredBy(rs, h, n, key, StoreAfter(rs, h)[key]);
    }
  }

  /** Every hit replays the whole body of an earlier miss for the same role, path and query, within
      the time to live of that path; that response had status 200, was JSON and shorter than the
      limit. */
  lemma HitsReplay(rs: seq<Request>, h: Hash, n: nat) returns (i: nat)
    requires n < |rs| && Regular(rs, h) && Hit(StoreAfter(rs[..n], h), rs[n], h).Some?
    ensures i < n && Trim(rs[i].role) == Trim(rs[n].role) && rs[i].path == rs[n].path && rs[i].query == rs[n].query
    ensures Hit(StoreAfter(rs[..i], h), rs[i], h).None? && Qualifies(rs[i])
    ensures Answer(StoreAfter(rs[..n], h), rs[n], h) == Answer(StoreAfter(rs[..i], h), rs[i], h) == Body(rs[i].actions)
    ensures rs[i].time <= rs[n].time < rs[i].time + Ttl(rs[n].path)
    ensures rs[n].isGet && !rs[n].noCache && rs[i].isGet && !rs[i].noCache
    ensures Status(rs[i].actions) == 200 && 0 < |Body(rs[i].actions)| < rs[i].max
  {
    var before := StoreAfter(rs[..n], h);
    var key := KeyOf(rs[n], h);
    EntryOrigin(rs[..n], h, key);
    i :| 0 <= i < n && StoredBy(rs[..n], h, i, key, before[key]);
    assert rs[..n][..i] == rs[..i] && rs[..n][i] == rs[i];
    hide Status, Contains, Lower, Body, Ttl, Trim, StoreAfter;
    KeyTextInjective(rs[i].role, rs[i].path, rs[i].query, rs[n].role, rs[n].path, rs[n].query);
  }
}
