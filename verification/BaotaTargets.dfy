/** The registry of Baota panels: saving it, merging it into the configuration and looking a
    panel up. internal/baota_targets.go. */
module BaotaTargets {
  import opened Text
  import opened Options

  /** A panel row, as stored (RuntimeBaotaTarget) and as merged (BaotaTargetEntry). */
  datatype Target = Target(id: string, name: string, url: string, apiKey: string, skipTls: Option<bool>, default: bool)

  /** The panel part of the runtime settings; without stored settings it is empty. */
  datatype Settings = Settings(targets: seq<Target>, url: string, apiKey: string, skipTls: Option<bool>)

  datatype PutError = BadId(row: nat) | DuplicateId(row: nat) | MissingUrl(row: nat) | BadUrl(row: nat) | BadScheme(row: nat)
    | MissingKey(row: nat)

  datatype Result<+T> = Ok(value: T) | Err(error: PutError)

  const MASK := "***"

  // ---------------------------------------------------------------- rows

  predicate IdChar(c: char) {
    'a' <= c <= 'z' || '0' <= c <= '9'
  }

  /** ^[a-z0-9](?:[a-z0-9-]{0,61}[a-z0-9])?$ */
  predicate ValidId(id: string) {
    && 1 <= |id| <= 63
    && IdChar(id[0]) && IdChar(id[|id| - 1])
    && forall i :: 0 <= i < |id| ==> IdChar(id[i]) || id[i] == '-'
  }

  function CleanId(raw: string): string {
    Trim(Lower(raw))
  }

  lemma ValidIdIsClean(id: string)
    requires ValidId(id)
    ensures CleanId(id) == id
  {
    assert Lower(id) == id;
    assert !IsSpace(id[0]) && !IsSpace(id[|id| - 1]);
  }

  predicate HasHttpScheme(u: string) {
    var l := Lower(u);
    "http://" <= l || "https://" <= l
  }

  predicate Masked(key: string) {
    Trim(key) == "" || Trim(key) == MASK
  }

  predicate UsableUrl(u: string, parses: string -> bool) {
    Trim(u) != "" && parses(Trim(u)) && HasHttpScheme(Trim(u))
  }

  /** The stored rows by clean id; a later row replaces an earlier one. */
  function ById(rows: seq<Target>): map<string, Target> {
    if rows == [] then map[] else
      var last := rows[|rows| - 1];
      var m := ById(rows[..|rows| - 1]);
      if ValidId(CleanId(last.id)) then m[CleanId(last.id) := last] else m
  }

  /** The key a submitted row ends up with: its own, else the stored key of the same id, else,
      for a single row, the old top-level key. */
  function ResolveKey(row: Target, stored: map<string, Target>, cur: Settings, single: bool): string {
    var id := CleanId(row.id);
    if !Masked(row.apiKey) then Trim(row.apiKey)
    else if id in stored && Trim(stored[id].apiKey) != "" then Trim(stored[id].apiKey)
    else if Trim(cur.apiKey) != "" && single then Trim(cur.apiKey)
    else Trim(row.apiKey)
  }

  function CleanRow(row: Target, key: string): Target {
    Target(CleanId(row.id), Trim(row.name), Trim(row.url), key, row.skipTls, row.default)
  }

  // ---------------------------------------------------------------- PUT

  predicate HasId(rows: seq<Target>, id: string) {
    exists i :: 0 <= i < |rows| && rows[i].id == id
  }

  /** The checks on one row, in the order they are made; repeated says its id was seen before. */
  function CheckRow(row: Target, i: nat, repeated: bool, stored: map<string, Target>, cur: Settings, single: bool,
                    parses: string -> bool): Result<Target>
  {
    var u := Trim(row.url);
    var key := ResolveKey(row, stored, cur, single);
    if !ValidId(CleanId(row.id)) then Err(BadId(i))
    else if repeated then Err(DuplicateId(i))
    else if u == "" then Err(MissingUrl(i))
    else if !parses(u) then Err(BadUrl(i))
    else if !HasHttpScheme(u) then Err(BadScheme(i))
    else if Masked(key) then Err(MissingKey(i))
    else Ok(CleanRow(row, key))
  }

  /** The first n submitted rows, checked and cleaned in order. */
  function CleanPrefix(rows: seq<Target>, n: nat, stored: map<string, Target>, cur: Settings, parses: string -> bool)
    : (r: Result<seq<Target>>)
    requires n <= |rows|
    ensures r.Ok? ==> |r.value| == n
  {
    if n == 0 then Ok([]) else
    match CleanPrefix(rows, n - 1, stored, cur, parses)
    case Err(e) => Err(e)
    case Ok(done) =>
      match CheckRow(rows[n - 1], n - 1, HasId(done, CleanId(rows[n - 1].id)), stored, cur, |rows| == 1, parses)
      case Err(e) => Err(e)
      case Ok(clean) => Ok(done + [clean])
  }

  /** The position of the first default row, or 0. */
  function DefaultIndex(rows: seq<Target>): (d: nat)
    requires rows != []
    ensures d < |rows|
    ensures forall i :: 0 <= i < d ==> !rows[i].default
    ensures rows[d].default || (d == 0 && NoDefault(rows))
  {
    if rows[0].default || |rows| == 1 then 0
    else
      var d := DefaultIndex(rows[1..]);
      if rows[1..][d].default then d + 1 else 0
  }

  predicate OnlyDefault(rows: seq<Target>, d: nat) {
    d < |rows| && forall i :: 0 <= i < |rows| ==> (rows[i].default <==> i == d)
  }

  function WithDefault(rows: seq<Target>, d: nat): (r: seq<Target>)
    ensures |r| == |rows|
  {
    seq(|rows|, i requires 0 <= i < |rows| => rows[i].(default := i == d))
  }

  function Put(body: Settings, cur: Settings, parses: string -> bool): Result<Settings> {
    if body.targets == [] then Ok(body) else
    match CleanPrefix(body.targets, |body.targets|, ById(cur.targets), cur, parses)
    case Err(e) => Err(e)
    case Ok(rows) => Ok(WithRows(body, WithDefault(rows, DefaultIndex(rows)), DefaultIndex(rows)))
  }

  /** The saved settings: the rows, and the default row's url and key at the top level. */
  function WithRows(body: Settings, rows: seq<Target>, d: nat): Settings
    requires d < |rows|
  {
    body.(targets := rows, url := Trim(rows[d].url), apiKey := Trim(rows[d].apiKey))
  }

  method IndexById(rows: seq<Target>) returns (m: map<string, Target>)
    ensures m == ById(rows)
  {
    m := map[];
    for i := 0 to |rows|
      invariant m == ById(rows[..i])
    {
      assert rows[..i + 1][..i] == rows[..i];
      var id := CleanId(rows[i].id);
      if !ValidId(id) {
        continue;
      }
      m := m[id := rows[i]];
    }
    assert rows[..|rows|] == rows;
  }

  predicate NoDefault(rows: seq<Target>) {
    forall i :: 0 <= i < |rows| ==> !rows[i].default
  }

  method CountDefaults(rows: seq<Target>) returns (n: nat)
    ensures n == 0 <==> NoDefault(rows)
    ensures n == 1 <==> exists d :: OnlyDefault(rows, d)
  {
    n := 0;
    ghost var d, e := 0, 0;
    for i := 0 to |rows|
      invariant n == 0 ==> forall j :: 0 <= j < i ==> !rows[j].default
      invariant n >= 1 ==> d < i && rows[d].default
      invariant n == 1 ==> forall j :: 0 <= j < i && rows[j].default ==> j == d
      invariant n >= 2 ==> d < e < i && rows[e].default
    {
      if rows[i].default {
        if n == 0 { d := i; } else { e := i; }
        n := n + 1;
      }
    }
    if n == 1 {
      assert OnlyDefault(rows, d);
    }
    forall k: nat | OnlyDefault(rows, k) ensures n == 1 {
      assert rows[k].default;
    }
  }

  method KeepOneDefault(rows: seq<Target>) returns (out: seq<Target>)
    requires rows != []
    ensures out == WithDefault(rows, DefaultIndex(rows))
  {
    out := rows;
    ghost var d := DefaultIndex(rows);
    var defN := CountDefaults(rows);
    if defN == 0 {
      out := out[0 := out[0].(default := true)];
    } else if defN > 1 {
      var first := true;
      for i := 0 to |out|
        invariant |out| == |rows|
        invariant first <==> i <= d
        invariant forall j :: 0 <= j < i ==> out[j] == rows[j].(default := j == d)
        invariant forall j :: i <= j < |out| ==> out[j] == rows[j]
      {
        if out[i].default {
          if !first {
            out := out[i := out[i].(default := false)];
          }
          first := false;
        }
      }
    }
  }

  lemma AddedId(rows: seq<Target>, row: Target)
    ensures forall id :: HasId(rows + [row], id) <==> HasId(rows, id) || id == row.id
  {
    forall id ensures HasId(rows + [row], id) <==> HasId(rows, id) || id == row.id {
      var all := rows + [row];
      assert all[|rows|] == row;
      if HasId(rows, id) {
        var i :| 0 <= i < |rows| && rows[i].id == id;
        assert all[i].id == id;
      }
    }
  }

  method CleanRows(rows: seq<Target>, stored: map<string, Target>, cur: Settings, parses: string -> bool)
    returns (r: Result<seq<Target>>)
    ensures r == CleanPrefix(rows, |rows|, stored, cur, parses)
  {
    hide CleanId, ResolveKey, ValidId, Trim, HasHttpScheme, Masked;
    var norm: seq<Target> := [];
    var seen: set<string> := {};
    for i := 0 to |rows|
      invariant CleanPrefix(rows, i, stored, cur, parses) == Ok(norm)
      invariant forall id :: id in seen <==> HasId(norm, id)
    {
      ErrorStays(rows, i + 1, stored, cur, parses);
      var id := CleanId(rows[i].id);
      var checked := CheckRow(rows[i], i, id in seen, stored, cur, |rows| == 1, parses);
      if checked.Err? {
        return Err(checked.error);
      }
      AddedId(norm, checked.value);
      seen := seen + {id};
      norm := norm + [checked.value];
    }
    return Ok(norm);
  }

  lemma {:induction false} ErrorStays(rows: seq<Target>, n: nat, stored: map<string, Target>, cur: Settings, parses: string -> bool)
    requires n <= |rows|
    ensures CleanPrefix(rows, n, stored, cur, parses).Err? ==>
              CleanPrefix(rows, |rows|, stored, cur, parses) == CleanPrefix(rows, n, stored, cur, parses)
    decreases |rows| - n
  {
    if n < |rows| && CleanPrefix(rows, n, stored, cur, parses).Err? {
      ErrorStays(rows, n + 1, stored, cur, parses);
    }
  }

  method MergeAndValidateOnPut(body: Settings, cur: Settings, parses: string -> bool) returns (r: Result<Settings>)
    ensures r == Put(body, cur, parses)
  {
    if |body.targets| == 0 {
      return Ok(body);
    }
    var stored := IndexById(cur.targets);
    var cleaned := CleanRows(body.targets, stored, cur, parses);
    if cleaned.Err? {
      return Err(cleaned.error);
    }
    hide CleanPrefix, ById, WithRows, OnlyDefault;
    var norm := KeepOneDefault(cleaned.value);
    ghost var d := DefaultIndex(cleaned.value);
    OneDefault(cleaned.value, d);
    var out := MirrorDefault(body, norm, d);
    r := Ok(out);
  }

  lemma OneDefault(rows: seq<Target>, d: nat)
    requires d < |rows|
    ensures OnlyDefault(WithDefault(rows, d), d)
  {
  }

  /** Stores the rows and copies the default row's url and key to the top level. */
  method MirrorDefault(body: Settings, rows: seq<Target>, ghost d: nat) returns (out: Settings)
    requires OnlyDefault(rows, d)
    ensures out == WithRows(body, rows, d)
  {
    out := body.(targets := rows);
    for i := 0 to |rows|
      invariant i <= d && out == body.(targets := rows)
    {
      if rows[i].default {
        out := out.(url := Trim(rows[i].url), apiKey := Trim(rows[i].apiKey));
        return;
      }
    }
  }

  /** A row may be saved: its id and url are valid and a key is known for it. */
  predicate Saveable(row: Target, stored: map<string, Target>, cur: Settings, single: bool, parses: string -> bool) {
    ValidId(CleanId(row.id)) && UsableUrl(row.url, parses) && !Masked(ResolveKey(row, stored, cur, single))
  }

  /** No two of the first n rows have the same clean id. */
  predicate DistinctIds(rows: seq<Target>, n: nat)
    requires n <= |rows|
  {
    forall i, j :: 0 <= i < j < n ==> CleanId(rows[i].id) != CleanId(rows[j].id)
  }

  lemma {:induction false} CleanShape(rows: seq<Target>, n: nat, stored: map<string, Target>, cur: Settings, parses: string -> bool)
    requires n <= |rows|
    ensures var r := CleanPrefix(rows, n, stored, cur, parses); var single := |rows| == 1;
            && (r.Ok? <==> DistinctIds(rows, n) && forall i :: 0 <= i < n ==> Saveable(rows[i], stored, cur, single, parses))
            && (r.Ok? ==> |r.value| == n
                          && forall i :: 0 <= i < n ==> r.value[i] == CleanRow(rows[i], ResolveKey(rows[i], stored, cur, single)))
  {
    hide CleanId, Masked, ValidId, Trim, HasHttpScheme, ResolveKey, Lower;
    if n > 0 {
      CleanShape(rows, n - 1, stored, cur, parses);
      var r := CleanPrefix(rows, n - 1, stored, cur, parses);
      if r.Ok? {
        assert HasId(r.value, CleanId(rows[n - 1].id)) <==>
               exists i :: 0 <= i < n - 1 && CleanId(rows[i].id) == CleanId(rows[n - 1].id) by {
          forall i | 0 <= i < n - 1 ensures r.value[i].id == CleanId(rows[i].id) { }
        }
      }
    }
  }

  // ---------------------------------------------------------------- what an accepted list is

  predicate CleanTarget(t: Target, parses: string -> bool) {
    && ValidId(t.id) && Trim(t.name) == t.name
    && Trim(t.url) == t.url && UsableUrl(t.url, parses)
    && Trim(t.apiKey) == t.apiKey && !Masked(t.apiKey)
  }

  predicate UniqueIds(rows: seq<Target>) {
    forall i, j :: 0 <= i < j < |rows| ==> rows[i].id != rows[j].id
  }

  /** What every saved list is: clean rows with real keys, distinct ids and exactly one default. */
  ghost predicate Accepted(rows: seq<Target>, parses: string -> bool) {
    && UniqueIds(rows)
    && (forall i :: 0 <= i < |rows| ==> CleanTarget(rows[i], parses))
    && exists d :: OnlyDefault(rows, d)
  }

  lemma CleanRowIsClean(row: Target, stored: map<string, Target>, cur: Settings, single: bool, parses: string -> bool)
    requires Saveable(row, stored, cur, single, parses)
    ensures var key := ResolveKey(row, stored, cur, single);
            CleanTarget(CleanRow(row, key), parses) && Trim(key) == key
  {
    TrimIdempotent(row.name);
    TrimIdempotent(row.url);
    TrimIdempotent(row.apiKey);
    TrimIdempotent(cur.apiKey);
    if CleanId(row.id) in stored {
      TrimIdempotent(stored[CleanId(row.id)].apiKey);
    }
  }

  /** What row i of a PUT is saved as. */
  function SavedRow(rows: seq<Target>, i: nat, stored: map<string, Target>, cur: Settings): Target
    requires i < |rows|
  {
    CleanRow(rows[i], ResolveKey(rows[i], stored, cur, |rows| == 1)).(default := i == DefaultIndex(rows))
  }

  predicate AllSaveable(rows: seq<Target>, stored: map<string, Target>, cur: Settings, parses: string -> bool) {
    DistinctIds(rows, |rows|) && forall i :: 0 <= i < |rows| ==> Saveable(rows[i], stored, cur, |rows| == 1, parses)
  }

  lemma PutShape(body: Settings, cur: Settings, parses: string -> bool)
    requires body.targets != []
    ensures var r := Put(body, cur, parses); var rows := body.targets; var stored := ById(cur.targets);
            && (r.Ok? <==> AllSaveable(rows, stored, cur, parses))
            && (r.Ok? ==>
                  && |r.value.targets| == |rows|
                  && (forall i :: 0 <= i < |rows| ==> r.value.targets[i] == SavedRow(rows, i, stored, cur))
                  && r.value == WithRows(body, r.value.targets, DefaultIndex(rows)))
  {
    hide CleanId, ResolveKey, ValidId, Trim, UsableUrl, Masked, ById, CleanPrefix, Saveable;
    var rows, stored := body.targets, ById(cur.targets);
    CleanShape(rows, |rows|, stored, cur, parses);
    var c := CleanPrefix(rows, |rows|, stored, cur, parses);
    if c.Ok? {
      SameDefaultIndex(rows, c.value);
    }
  }

  /** Row i of out comes from row i submitted; the first marked row, or row 0, is the only default
      and is mirrored at the top level. */
  predicate SavedFrom(out: Settings, body: Settings, cur: Settings)
    requires body.targets != []
  {
    var rows, d := body.targets, DefaultIndex(body.targets);
    && |out.targets| == |rows| && OnlyDefault(out.targets, d)
    && (forall i :: 0 <= i < |rows| ==> out.targets[i] == SavedRow(rows, i, ById(cur.targets), cur))
    && out == body.(targets := out.targets, url := out.targets[d].url, apiKey := out.targets[d].apiKey)
  }

  /** A non-empty PUT succeeds exactly when the clean ids are distinct and every row has a valid
      id, a usable url and a key; what it saves is an accepted list made row by row. */
  lemma PutAccepts(body: Settings, cur: Settings, parses: string -> bool)
    requires body.targets != []
    ensures Put(body, cur, parses).Ok? <==> AllSaveable(body.targets, ById(cur.targets), cur, parses)
    ensures Put(body, cur, parses).Ok? ==>
              Accepted(Put(body, cur, parses).value.targets, parses) && SavedFrom(Put(body, cur, parses).value, body, cur)
  {
    PutShape(body, cur, parses);
    hide Put, ById, AllSaveable, SavedFrom, Accepted;
    if Put(body, cur, parses).Ok? {
      SavedIsAccepted(Put(body, cur, parses).value, body, cur, parses);
    }
  }

  lemma SavedIsAccepted(out: Settings, body: Settings, cur: Settings, parses: string -> bool)
    requires body.targets != [] && |out.targets| == |body.targets|
    requires AllSaveable(body.targets, ById(cur.targets), cur, parses)
    requires forall i :: 0 <= i < |out.targets| ==> out.targets[i] == SavedRow(body.targets, i, ById(cur.targets), cur)
    requires out == WithRows(body, out.targets, DefaultIndex(body.targets))
    ensures Accepted(out.targets, parses) && SavedFrom(out, body, cur)
  {
    var rows, d := body.targets, DefaultIndex(body.targets);
    forall i | 0 <= i < |rows|
      ensures CleanTarget(out.targets[i], parses) && out.targets[i].id == CleanId(rows[i].id)
      ensures out.targets[i].default <==> i == d
    {
      SavedRowIsClean(rows, i, ById(cur.targets), cur, parses);
    }
    CleanIsTrimmed(out.targets[d], parses);
    assert DistinctIds(rows, |rows|);
    hide ById, SavedRow, CleanId, CleanTarget, Saveable, Trim, DefaultIndex, AllSaveable;
    assert OnlyDefault(out.targets, d);
    assert UniqueIds(out.targets);
  }

  lemma CleanIsTrimmed(t: Target, parses: string -> bool)
    requires CleanTarget(t, parses)
    ensures Trim(t.url) == t.url && Trim(t.apiKey) == t.apiKey
  {
  }

  lemma SavedRowIsClean(rows: seq<Target>, i: nat, stored: map<string, Target>, cur: Settings, parses: string -> bool)
    requires i < |rows| && Saveable(rows[i], stored, cur, |rows| == 1, parses)
    ensures var t := SavedRow(rows, i, stored, cur); CleanTarget(t, parses) && t.id == CleanId(rows[i].id)
  {
    CleanRowIsClean(rows[i], stored, cur, |rows| == 1, parses);
  }

  lemma {:induction false} SameDefaultIndex(a: seq<Target>, b: seq<Target>)
    requires a != [] && |a| == |b| && forall i :: 0 <= i < |a| ==> a[i].default == b[i].default
    ensures DefaultIndex(a) == DefaultIndex(b)
  {
    if !a[0].default && |a| > 1 {
      SameDefaultIndex(a[1..], b[1..]);
    }
  }

  lemma DefaultIndexIs(rows: seq<Target>, d: nat)
    requires OnlyDefault(rows, d)
    ensures DefaultIndex(rows) == d && WithDefault(rows, d) == rows
  {
    var k := DefaultIndex(rows);
    assert rows[d].default;
    assert rows[k].default <==> k == d;
    assert forall i :: 0 <= i < |rows| ==> WithDefault(rows, d)[i] == rows[i];
  }

  // ---------------------------------------------------------------- round trips

  lemma {:induction false} ByIdSource(rows: seq<Target>, id: string)
    requires id in ById(rows)
    ensures ValidId(id) && exists i :: 0 <= i < |rows| && rows[i] == ById(rows)[id] && CleanId(rows[i].id) == id
  {
    hide CleanId, ValidId;
    var n := |rows| - 1;
    if ById(rows)[id] == rows[n] && CleanId(rows[n].id) == id && ValidId(id) {
    } else {
      ByIdSource(rows[..n], id);
      var i :| 0 <= i < n && rows[..n][i] == ById(rows[..n])[id] && CleanId(rows[..n][i].id) == id;
      assert rows[i] == rows[..n][i];
    }
  }

  lemma {:induction false} ByIdAt(rows: seq<Target>, i: nat)
    requires i < |rows| && UniqueIds(rows) && forall j :: 0 <= j < |rows| ==> ValidId(rows[j].id)
    ensures rows[i].id in ById(rows) && ById(rows)[rows[i].id] == rows[i]
  {
    var n := |rows| - 1;
    ValidIdIsClean(rows[n].id);
    hide CleanId, ValidId;
    if i < n {
      ByIdAt(rows[..n], i);
      assert rows[i].id != rows[n].id;
    }
  }

  lemma CleanTargetIsFixed(t: Target, parses: string -> bool)
    requires CleanTarget(t, parses)
    ensures CleanRow(t, t.apiKey) == t
  {
    ValidIdIsClean(t.id);
  }

  /** The submitted rows differ from the stored ones at most in keys shown as "" or "***". */
  predicate MaskedCopy(shown: seq<Target>, rows: seq<Target>) {
    |shown| == |rows|
    && forall i :: 0 <= i < |rows| ==>
         shown[i] == rows[i] || (Masked(shown[i].apiKey) && shown[i] == rows[i].(apiKey := shown[i].apiKey))
  }

  /** Showing a saved list with any of its keys masked and saving it again restores it exactly. */
  lemma MaskRoundTrip(rows: seq<Target>, shown: seq<Target>, body: Settings, cur: Settings, parses: string -> bool)
    requires Accepted(rows, parses) && MaskedCopy(shown, rows)
    requires body.targets == shown && cur.targets == rows
    ensures var r := Put(body, cur, parses); r.Ok? && r.value.targets == rows
  {
    var d: nat :| OnlyDefault(rows, d);
    var stored, single := ById(rows), |rows| == 1;
    forall i | 0 <= i < |rows|
      ensures Saveable(shown[i], stored, cur, single, parses)
      ensures CleanRow(shown[i], ResolveKey(shown[i], stored, cur, single)) == rows[i]
      ensures CleanId(shown[i].id) == rows[i].id
    {
      ByIdAt(rows, i);
      ValidIdIsClean(rows[i].id);
      CleanTargetIsFixed(rows[i], parses);
    }
    CleanShape(shown, |shown|, stored, cur, parses);
    hide CleanId, ResolveKey, ValidId, Trim, UsableUrl, Masked, ById, CleanPrefix;
    var c := CleanPrefix(shown, |shown|, stored, cur, parses);
    assert c.value == rows;
    DefaultIndexIs(rows, d);
  }

  /** An accepted list is saved as it is, whatever settings are stored. */
  lemma AcceptedIsFixed(rows: seq<Target>, body: Settings, cur: Settings, parses: string -> bool)
    requires Accepted(rows, parses) && body.targets == rows
    ensures var r := Put(body, cur, parses); r.Ok? && r.value == WithRows(body, rows, DefaultIndex(rows))
  {
    var d: nat :| OnlyDefault(rows, d);
    var stored, single := ById(cur.targets), |rows| == 1;
    forall i | 0 <= i < |rows|
      ensures Saveable(rows[i], stored, cur, single, parses)
      ensures CleanRow(rows[i], ResolveKey(rows[i], stored, cur, single)) == rows[i]
      ensures CleanId(rows[i].id) == rows[i].id
    {
      ValidIdIsClean(rows[i].id);
      CleanTargetIsFixed(rows[i], parses);
    }
    DefaultIndexIs(rows, d);
    CleanShape(rows, |rows|, stored, cur, parses);
    hide CleanId, ResolveKey, ValidId, UsableUrl, Masked, ById, CleanPrefix, Trim;
    assert CleanPrefix(rows, |rows|, stored, cur, parses).value == rows;
  }

  /** PUT is idempotent: saving a saved list again, against any stored settings, changes nothing. */
  lemma PutIdempotent(body: Settings, cur: Settings, other: Settings, parses: string -> bool)
    requires body.targets != [] && Put(body, cur, parses).Ok?
    ensures Put(Put(body, cur, parses).value, other, parses) == Put(body, cur, parses)
  {
    PutAccepts(body, cur, parses);
    var once := Put(body, cur, parses).value;
    AcceptedIsFixed(once.targets, once, other, parses);
    var d := DefaultIndex(body.targets);
    hide Put, ById, CleanId, ResolveKey, ValidId, UsableUrl, Masked;
    DefaultIndexIs(once.targets, d);
    assert CleanTarget(once.targets[d], parses);
  }

  /** A masked row only ever receives the key stored for its own id, except that a single row may
      take over the old top-level key. */
  lemma MaskedRowKeepsOwnKey(body: Settings, cur: Settings, parses: string -> bool, i: nat)
    requires i < |body.targets| && Masked(body.targets[i].apiKey) && Put(body, cur, parses).Ok?
    ensures var t := Put(body, cur, parses).value.targets[i];
            || (exists k :: 0 <= k < |cur.targets| && CleanId(cur.targets[k].id) == t.id && t.apiKey == Trim(cur.targets[k].apiKey))
            || (|body.targets| == 1 && t.apiKey == Trim(cur.apiKey))
  {
    PutAccepts(body, cur, parses);
    var id := CleanId(body.targets[i].id);
    if id in ById(cur.targets) {
      ByIdSource(cur.targets, id);
    }
  }
}
