/** What a save and a merge of the panels do, in terms of the submitted fields alone:
    internal/baota_targets.go, lines 122-287. */
module BaotaTerms {
  import opened Text
  import opened Options
  import opened BaotaTargets
  import opened BaotaLookup

  // ---------------------------------------------------------------- ids, urls and keys

  /** 1 to 63 small letters, digits and hyphens, with no hyphen at either end. */
  predicate PlainId(id: string) {
    && 1 <= |id| <= 63 && id[0] != '-' && id[|id| - 1] != '-'
    && forall c :: c in id ==> 'a' <= c <= 'z' || '0' <= c <= '9' || c == '-'
  }

  lemma ValidIdMeans(id: string)
    ensures ValidId(id) <==> PlainId(id)
  {
    if PlainId(id) {
      assert id[0] in id && id[|id| - 1] in id;
      forall i | 0 <= i < |id| ensures IdChar(id[i]) || id[i] == '-' {
        assert id[i] in id;
      }
    }
  }

  predicate PlainUrl(u: string, parses: string -> bool) {
    u != "" && parses(u) && ((|u| >= 7 && Lower(u[..7]) == "http://") || (|u| >= 8 && Lower(u[..8]) == "https://"))
  }

  lemma UsableUrlMeans(u: string, parses: string -> bool)
    ensures UsableUrl(u, parses) <==> PlainUrl(Trim(u), parses)
  {
    LowerPrefix(Trim(u), "http://");
    LowerPrefix(Trim(u), "https://");
    hide Trim, Lower;
  }

  lemma LowerPrefix(u: string, p: string)
    ensures p <= Lower(u) <==> |p| <= |u| && Lower(u[..|p|]) == p
  {
    if |p| <= |u| {
      assert Lower(u[..|p|]) == Lower(u)[..|p|];
    }
  }

  predicate NoKey(key: string) {
    Trim(key) == "" || Trim(key) == "***"
  }

  /** Row i is the last stored one with this id. */
  predicate LastStored(rows: seq<Target>, id: string, i: nat) {
    i < |rows| && Trim(Lower(rows[i].id)) == id && forall j :: i < j < |rows| ==> Trim(Lower(rows[j].id)) != id
  }

  /** A stored row of this id has a key to offer. */
  predicate Offers(rows: seq<Target>, id: string, i: nat) {
    LastStored(rows, id, i) && Trim(rows[i].apiKey) != ""
  }

  lemma {:induction false} ByIdMeans(rows: seq<Target>, id: string)
    requires ValidId(id)
    ensures id in ById(rows) ==> exists i :: 0 <= i < |rows| && LastStored(rows, id, i) && ById(rows)[id] == rows[i]
    ensures id !in ById(rows) ==> forall i :: 0 <= i < |rows| ==> Trim(Lower(rows[i].id)) != id
  {
    hide Trim, Lower, ValidId;
    if rows != [] {
      var n := |rows| - 1;
      ByIdMeans(rows[..n], id);
      if Trim(Lower(rows[n].id)) == id {
        assert LastStored(rows, id, n);
      } else if id in ById(rows) {
        var i :| 0 <= i < n && LastStored(rows[..n], id, i) && ById(rows[..n])[id] == rows[..n][i];
        assert LastStored(rows, id, i);
      }
    }
  }

  /** A key of its own counts; a masked one is replaced by that of the last stored row of the same id,
      and for a list of one row by the old top-level key; nothing else is ever taken. */
  lemma ResolvedKeyMeans(row: Target, cur: Settings, single: bool)
    requires PlainId(Trim(Lower(row.id)))
    ensures var id := Trim(Lower(row.id)); var key := ResolveKey(row, ById(cur.targets), cur, single);
            && (!NoKey(row.apiKey) ==> key == Trim(row.apiKey))
            && (NoKey(row.apiKey) ==>
                  && (forall i: nat :: Offers(cur.targets, id, i) ==> key == Trim(cur.targets[i].apiKey))
                  && ((forall i: nat :: !Offers(cur.targets, id, i)) ==>
                        if single && Trim(cur.apiKey) != "" then key == Trim(cur.apiKey) else NoKey(key)))
  {
    var id := Trim(Lower(row.id));
    ValidIdMeans(id);
    ByIdMeans(cur.targets, id);
    TrimIdempotent(row.apiKey);
    hide Trim, Lower, ValidId, PlainId, ById;
    if id in ById(cur.targets) {
      var k :| 0 <= k < |cur.targets| && LastStored(cur.targets, id, k) && ById(cur.targets)[id] == cur.targets[k];
      assert Offers(cur.targets, id, k) <==> Trim(cur.targets[k].apiKey) != "";
      assert forall i: nat :: Offers(cur.targets, id, i) ==> i == k;
    }
  }

  // ---------------------------------------------------------------- a save

  /** The default row of a submitted list: the first marked one, or row 0. */
  predicate IsDefault(rows: seq<Target>, d: nat) {
    && d < |rows| && (forall j :: 0 <= j < d ==> !rows[j].default)
    && (rows[d].default || (d == 0 && forall j :: 0 <= j < |rows| ==> !rows[j].default))
  }

  /** A save succeeds exactly if every row has a plain id of its own, a plain url and a key; then each
      row is stored trimmed, with that key, and the default row alone is marked and is mirrored at the
      top level. */
  lemma PutMeans(body: Settings, cur: Settings, parses: string -> bool)
    requires body.targets != []
    ensures var rows := body.targets; var r := Put(body, cur, parses); var single := |rows| == 1;
            && (r.Ok? <==>
                  && (forall i, j :: 0 <= i < j < |rows| ==> Trim(Lower(rows[i].id)) != Trim(Lower(rows[j].id)))
                  && forall i :: 0 <= i < |rows| ==>
                       && PlainId(Trim(Lower(rows[i].id))) && PlainUrl(Trim(rows[i].url), parses)
                       && !NoKey(ResolveKey(rows[i], ById(cur.targets), cur, single)))
            && (r.Ok? ==>
                  && |r.value.targets| == |rows|
                  && (forall i :: 0 <= i < |rows| ==>
                        var t := r.value.targets[i];
                        && t.id == Trim(Lower(rows[i].id)) && t.name == Trim(rows[i].name) && t.url == Trim(rows[i].url)
                        && t.skipTls == rows[i].skipTls && t.apiKey == ResolveKey(rows[i], ById(cur.targets), cur, single)
                        && (t.default <==> IsDefault(rows, i)))
                  && (forall d: nat :: IsDefault(rows, d) ==>
                        r.value == body.(targets := r.value.targets, url := r.value.targets[d].url,
                                         apiKey := r.value.targets[d].apiKey)))
  {
    var rows, d := body.targets, DefaultIndex(body.targets);
    PutAccepts(body, cur, parses);
    forall i | 0 <= i < |rows|
      ensures ValidId(CleanId(rows[i].id)) <==> PlainId(Trim(Lower(rows[i].id)))
      ensures UsableUrl(rows[i].url, parses) <==> PlainUrl(Trim(rows[i].url), parses)
    {
      ValidIdMeans(Trim(Lower(rows[i].id)));
      UsableUrlMeans(rows[i].url, parses);
    }
    DefaultIsFirst(rows);
    hide Put, ById, ResolveKey, Accepted, ValidId, UsableUrl, PlainId, PlainUrl, Trim, Lower, DefaultIndex, IsDefault;
    assert |rows| > 0;
  }

  lemma DefaultIsFirst(rows: seq<Target>)
    requires rows != []
    ensures IsDefault(rows, DefaultIndex(rows))
    ensures forall d: nat :: IsDefault(rows, d) ==> d == DefaultIndex(rows)
  {
    hide DefaultIndex;
  }

  /** What an error says of the row it names. */
  predicate ErrorHolds(e: PutError, body: Settings, cur: Settings, parses: string -> bool) {
    var rows := body.targets;
    && e.row < |rows|
    && var row := rows[e.row]; var id := Trim(Lower(row.id));
    match e
    case BadId(_) => !PlainId(id)
    case DuplicateId(i) => exists j :: 0 <= j < i && Trim(Lower(rows[j].id)) == id
    case MissingUrl(_) => Trim(row.url) == ""
    case BadUrl(_) => !parses(Trim(row.url))
    case BadScheme(_) => parses(Trim(row.url)) && !PlainUrl(Trim(row.url), parses)
    case MissingKey(_) => NoKey(ResolveKey(row, ById(cur.targets), cur, |rows| == 1))
  }

  lemma {:induction false} PrefixErrorHolds(body: Settings, cur: Settings, parses: string -> bool, n: nat)
    requires n <= |body.targets|
    ensures var r := CleanPrefix(body.targets, n, ById(cur.targets), cur, parses);
            r.Err? ==> && r.error.row < n && ErrorHolds(r.error, body, cur, parses)
                       && CleanPrefix(body.targets, r.error.row, ById(cur.targets), cur, parses).Ok?
  {
    hide ById, ErrorHolds, CheckRow, CleanId;
    if n > 0 {
      PrefixErrorHolds(body, cur, parses, n - 1);
      var rows, stored := body.targets, ById(cur.targets);
      var done := CleanPrefix(rows, n - 1, stored, cur, parses);
      if done.Ok? {
        RowErrorHolds(body, cur, parses, n - 1);
      }
    }
  }

  /** The error of a row after rows that are fine. */
  lemma RowErrorHolds(body: Settings, cur: Settings, parses: string -> bool, n: nat)
    requires n < |body.targets| && CleanPrefix(body.targets, n, ById(cur.targets), cur, parses).Ok?
    ensures var rows, stored := body.targets, ById(cur.targets);
            var repeated := HasId(CleanPrefix(rows, n, stored, cur, parses).value, CleanId(rows[n].id));
            var r := CheckRow(rows[n], n, repeated, stored, cur, |rows| == 1, parses);
            r.Err? ==> r.error.row == n && ErrorHolds(r.error, body, cur, parses)
  {
    var rows, row := body.targets, body.targets[n];
    ValidIdMeans(Trim(Lower(row.id)));
    UsableUrlMeans(row.url, parses);
    CleanShape(rows, n, ById(cur.targets), cur, parses);
    TrimIdempotent(row.url);
    hide ById, ResolveKey, PlainId, PlainUrl, ValidId, Trim, Lower, HasHttpScheme, CleanPrefix;
  }

  /** The rows before row n are fine. */
  predicate FineBefore(body: Settings, cur: Settings, parses: string -> bool, n: nat) {
    var rows := body.targets;
    && n <= |rows|
    && (forall i, j :: 0 <= i < j < n ==> Trim(Lower(rows[i].id)) != Trim(Lower(rows[j].id)))
    && forall i :: 0 <= i < n ==>
         && PlainId(Trim(Lower(rows[i].id))) && PlainUrl(Trim(rows[i].url), parses)
         && !NoKey(ResolveKey(rows[i], ById(cur.targets), cur, |rows| == 1))
  }

  lemma FineIsClean(body: Settings, cur: Settings, parses: string -> bool, n: nat)
    requires n <= |body.targets| && CleanPrefix(body.targets, n, ById(cur.targets), cur, parses).Ok?
    ensures FineBefore(body, cur, parses, n)
  {
    var rows := body.targets;
    CleanShape(rows, n, ById(cur.targets), cur, parses);
    forall i | 0 <= i < n
      ensures PlainId(Trim(Lower(rows[i].id))) && PlainUrl(Trim(rows[i].url), parses)
      ensures !NoKey(ResolveKey(rows[i], ById(cur.targets), cur, |rows| == 1))
    {
      assert Saveable(rows[i], ById(cur.targets), cur, |rows| == 1, parses);
      ValidIdMeans(Trim(Lower(rows[i].id)));
      UsableUrlMeans(rows[i].url, parses);
    }
    hide CleanPrefix, ById, ResolveKey, PlainId, PlainUrl, NoKey, Trim, Lower, Saveable;
  }

  /** A refused save names the first row that is not fine, and what is wrong with it. */
  lemma PutErrorHolds(body: Settings, cur: Settings, parses: string -> bool)
    requires Put(body, cur, parses).Err?
    ensures var e := Put(body, cur, parses).error;
            ErrorHolds(e, body, cur, parses) && FineBefore(body, cur, parses, e.row)
  {
    PrefixErrorHolds(body, cur, parses, |body.targets|);
    FineIsClean(body, cur, parses, Put(body, cur, parses).error.row);
    hide ErrorHolds, FineBefore, CleanPrefix;
  }

  lemma MaskedMeans(key: string)
    ensures Masked(key) <==> NoKey(key)
  {
  }

  // ---------------------------------------------------------------- the merge and the lookup

  /** Row k is merged: it has a plain id that no earlier row has, a url and a key. */
  predicate IsMerged(rows: seq<Target>, k: nat)
    requires k < |rows|
  {
    && PlainId(Trim(Lower(rows[k].id))) && Trim(rows[k].url) != "" && Trim(rows[k].apiKey) != ""
    && forall j :: 0 <= j < k ==> Trim(Lower(rows[j].id)) != Trim(Lower(rows[k].id))
  }

  lemma MergesMeans(rows: seq<Target>, k: nat)
    requires k < |rows|
    ensures Merges(rows, k) <==> IsMerged(rows, k)
  {
    ValidIdMeans(Trim(Lower(rows[k].id)));
    hide ValidId, PlainId, Trim, Lower;
  }

  /** Of any saved list, exactly those rows are merged, in order and trimmed. */
  lemma {:induction false} MergedInOrder(rows: seq<Target>, n: nat) returns (at: seq<nat>)
    requires n <= |rows|
    ensures |at| == |MergedPrefix(rows, n)|
    ensures forall i, j :: 0 <= i < j < |at| ==> at[i] < at[j]
    ensures forall k: nat :: k < n ==> (k in at <==> IsMerged(rows, k))
    ensures forall i :: 0 <= i < |at| ==> at[i] < n
    ensures forall i :: 0 <= i < |at| ==>
              var row := rows[at[i]];
              MergedPrefix(rows, n)[i]
              == Target(Trim(Lower(row.id)), Trim(row.name), Trim(row.url), Trim(row.apiKey), row.skipTls, row.default)
  {
    hide IsMerged, Merges, Trim, Lower;
    at := [];
    if n > 0 {
      var before := MergedInOrder(rows, n - 1);
      MergesMeans(rows, n - 1);
      at := before + if Merges(rows, n - 1) then [n - 1] else [];
    }
  }

  /** The merged list keeps its default if it has exactly one, and else has its first row as default;
      that row is mirrored at the top level, with its own choice about certificates, or else the saved
      one, or else the one for its url. Without any merged row the configuration keeps its own panel. */
  lemma MergeMeans(rs: Settings, base: Config, skipFor: UrlPolicy, d: nat)
    ensures var built := MergedPrefix(rs.targets, |rs.targets|); var c := Merge(rs, base, skipFor);
            && (built == [] ==> c == base.(targets := []))
            && (built != [] ==> |c.targets| == |built|)
            && (OnlyDefault(built, d) ==> c.targets == built)
            && (built != [] && (forall k: nat :: !OnlyDefault(built, k)) ==> OnlyDefault(c.targets, 0))
            && (forall i :: 0 <= i < |c.targets| ==> c.targets[i].(default := false) == built[i].(default := false))
            && (OnlyDefault(c.targets, d) ==>
                  var t := c.targets[d];
                  && c.url == Trim(t.url) && c.apiKey == Trim(t.apiKey)
                  && c.skipTls == if t.skipTls.Some? then t.skipTls.value
                                  else if rs.skipTls.Some? then rs.skipTls.value else skipFor(t.url))
  {
    var built := MergedPrefix(rs.targets, |rs.targets|);
    var c := Merge(rs, base, skipFor);
    if OnlyDefault(built, d) {
      DefaultIndexIs(built, d);
    }
    if OnlyDefault(c.targets, d) {
      DefaultIndexIs(c.targets, d);
    }
    hide MergedPrefix, Trim, DefaultIndex;
  }

  /** Without a usable row the top-level panel serves every id, as the panel called "default". */
  lemma TopLevelPanelServes(cfg: Config, id: string)
    requires forall i :: 0 <= i < |cfg.targets| ==> Trim(cfg.targets[i].url) == "" || Trim(cfg.targets[i].apiKey) == ""
    requires Trim(cfg.url) != "" && Trim(cfg.apiKey) != ""
    ensures var c := ConfigForTargetId(cfg, id);
            c.url == Trim(cfg.url) && c.apiKey == Trim(cfg.apiKey) && c.skipTls == cfg.skipTls
    ensures DefaultTargetId(cfg) == "default"
  {
    NoneUsable(cfg.targets);
    TrimIdempotent(cfg.url);
    TrimIdempotent(cfg.apiKey);
    hide Trim, Usable;
    var rows := EffectiveTargets(cfg);
    assert |rows| == 1 && rows[0].id == "default";
    FindInOne(rows, Trim(id));
    FindInOne(rows, "default");
  }

  lemma FindInOne(rows: seq<Target>, id: string)
    requires |rows| == 1
    ensures FindId(rows, id) == if rows[0].id == id then Some(rows[0]) else None
  {
    assert FindId(rows[1..], id) == None;
  }

  lemma {:induction false} NoneUsable(rows: seq<Target>)
    requires forall i :: 0 <= i < |rows| ==> Trim(rows[i].url) == "" || Trim(rows[i].apiKey) == ""
    ensures Usable(rows) == []
  {
    hide Trim;
    if rows != [] {
      NoneUsable(rows[1..]);
    }
  }
}
