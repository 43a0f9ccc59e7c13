/** Merging the saved panels into the configuration and looking one up:
    internal/baota_targets.go, lines 35-120 and 133-195. */
module BaotaLookup {
  import opened Text
  import opened Options
  import opened BaotaTargets

  /** The panel part of the process configuration. */
  datatype Config = Config(targets: seq<Target>, url: string, apiKey: string, skipTls: bool)

  // ---------------------------------------------------------------- merging into the configuration

  /** Row i is merged: its id is valid and new, and it has a url and a key. */
  predicate Merges(rows: seq<Target>, i: nat)
    requires i < |rows|
  {
    && ValidId(CleanId(rows[i].id))
    && (forall j :: 0 <= j < i ==> CleanId(rows[j].id) != CleanId(rows[i].id))
    && Trim(rows[i].url) != "" && Trim(rows[i].apiKey) != ""
  }

  function MergedPrefix(rows: seq<Target>, n: nat): seq<Target>
    requires n <= |rows|
  {
    if n == 0 then [] else
      var done := MergedPrefix(rows, n - 1);
      if Merges(rows, n - 1) then done + [CleanRow(rows[n - 1], Trim(rows[n - 1].apiKey))] else done
  }

  function MergedRows(rows: seq<Target>): seq<Target> {
    var built := MergedPrefix(rows, |rows|);
    if built == [] || OnlyDefault(built, DefaultIndex(built)) then built else WithDefault(built, 0)
  }

  /** Whether certificate checks are skipped for a panel, by default, given its url. */
  type UrlPolicy = string -> bool

  function Merge(rs: Settings, base: Config, skipFor: UrlPolicy): Config {
    var rows := MergedRows(rs.targets);
    if rows == [] then base.(targets := [])
    else
      var t := rows[DefaultIndex(rows)];
      Config(rows, Trim(t.url), Trim(t.apiKey),
             if t.skipTls.Some? then t.skipTls.value
             else if rs.skipTls.Some? then rs.skipTls.value
             else skipFor(t.url))
  }

  method BuildRows(rows: seq<Target>) returns (built: seq<Target>)
    ensures built == MergedPrefix(rows, |rows|)
  {
    hide CleanRow, CleanId, ValidId, Trim;
    built := [];
    var seen: set<string> := {};
    for i := 0 to |rows|
      invariant built == MergedPrefix(rows, i)
      invariant forall j :: 0 <= j < i && ValidId(CleanId(rows[j].id)) ==> CleanId(rows[j].id) in seen
      invariant forall id :: id in seen ==> exists j :: 0 <= j < i && id == CleanId(rows[j].id)
    {
      var id := CleanId(rows[i].id);
      if !ValidId(id) {
        continue;
      }
      if id in seen {
        continue;
      }
      seen := seen + {id};
      if Trim(rows[i].url) == "" || Trim(rows[i].apiKey) == "" {
        continue;
      }
      built := built + [CleanRow(rows[i], Trim(rows[i].apiKey))];
    }
  }

  method MergeIntoConfig(rs: Settings, base: Config, skipFor: UrlPolicy) returns (out: Config)
    ensures out == Merge(rs, base, skipFor)
  {
    out := base;
    var built := BuildRows(rs.targets);
    hide MergedPrefix, Trim;
    if |built| == 0 {
      return out.(targets := []);
    }
    var defN := CountDefaults(built);
    ghost var only := OnlyDefault(built, DefaultIndex(built));
    assert only <==> defN == 1 by {
      if d: nat :| OnlyDefault(built, d) {
        DefaultIndexIs(built, d);
      }
    }
    if defN != 1 {
      built := MarkFirst(built);
    }
    out := out.(targets := built);
    var d := FindDefault(built);
    out := out.(url := Trim(built[d].url), apiKey := Trim(built[d].apiKey));
    match built[d].skipTls {
      case Some(b) => out := out.(skipTls := b);
      case None =>
        if rs.skipTls.Some? {
          out := out.(skipTls := rs.skipTls.value);
        } else {
          out := out.(skipTls := skipFor(built[d].url));
        }
    }
  }

  method MarkFirst(rows: seq<Target>) returns (out: seq<Target>)
    requires rows != []
    ensures out == WithDefault(rows, 0) && OnlyDefault(out, 0)
  {
    out := rows;
    for i := 0 to |out|
      invariant |out| == |rows|
      invariant forall j :: 0 <= j < i ==> out[j] == rows[j].(default := j == 0)
      invariant forall j :: i <= j < |out| ==> out[j] == rows[j]
    {
      out := out[i := out[i].(default := i == 0)];
    }
  }

  method FindDefault(rows: seq<Target>) returns (d: nat)
    requires exists k :: OnlyDefault(rows, k)
    ensures d < |rows| && d == DefaultIndex(rows)
  {
    ghost var k: nat :| OnlyDefault(rows, k);
    DefaultIndexIs(rows, k);
    d := 0;
    while !rows[d].default
      invariant d <= k
      decreases k - d
    {
      d := d + 1;
    }
  }

  // ---------------------------------------------------------------- looking a panel up

  function Usable(rows: seq<Target>): seq<Target> {
    if rows == [] then [] else
      var rest := Usable(rows[1..]);
      if Trim(rows[0].url) == "" || Trim(rows[0].apiKey) == "" then rest else [rows[0]] + rest
  }

  const DEFAULT_ID := "default"

  /** The panels that can be called; without any row, the single panel of the top-level fields. */
  function EffectiveTargets(cfg: Config): seq<Target> {
    var rows := Usable(cfg.targets);
    if rows != [] then rows
    else if Trim(cfg.url) != "" && Trim(cfg.apiKey) != ""
    then [Target(DEFAULT_ID, "默认", Trim(cfg.url), Trim(cfg.apiKey), None, true)]
    else []
  }

  function DefaultTargetId(cfg: Config): string {
    var rows := EffectiveTargets(cfg);
    if rows == [] then DEFAULT_ID else rows[DefaultIndex(rows)].id
  }

  /** The first row with this id. */
  function FindId(rows: seq<Target>, id: string): Option<Target> {
    if rows == [] then None
    else if rows[0].id == id then Some(rows[0])
    else FindId(rows[1..], id)
  }

  function Connect(cfg: Config, t: Target): Config {
    Config([], Trim(t.url), Trim(t.apiKey), if t.skipTls.Some? then t.skipTls.value else cfg.skipTls)
  }

  function ConfigForTargetId(cfg: Config, targetId: string): Config {
    var rows := EffectiveTargets(cfg);
    var id := if Trim(targetId) == "" then DefaultTargetId(cfg) else Trim(targetId);
    match FindId(rows, id)
    case Some(t) => Connect(cfg, t)
    case None =>
      match FindId(rows, DefaultTargetId(cfg))
      case Some(t) => Connect(cfg, t)
      case None => cfg.(targets := [])
  }

  lemma {:induction false} AcceptedPrefix(rows: seq<Target>, n: nat, parses: string -> bool)
    requires n <= |rows| && UniqueIds(rows) && forall i :: 0 <= i < |rows| ==> CleanTarget(rows[i], parses)
    ensures MergedPrefix(rows, n) == rows[..n]
  {
    hide CleanTarget, CleanRow, CleanId, Trim, Merges;
    if n > 0 {
      AcceptedPrefix(rows, n - 1, parses);
      AcceptedMerges(rows, n - 1, parses);
      assert rows[..n] == rows[..n - 1] + [rows[n - 1]];
    }
  }

  lemma AcceptedMerges(rows: seq<Target>, i: nat, parses: string -> bool)
    requires i < |rows| && UniqueIds(rows) && forall j :: 0 <= j < |rows| ==> CleanTarget(rows[j], parses)
    ensures Merges(rows, i) && CleanRow(rows[i], Trim(rows[i].apiKey)) == rows[i]
  {
    CleanTargetIsFixed(rows[i], parses);
    forall j | 0 <= j <= i ensures CleanId(rows[j].id) == rows[j].id {
      ValidIdIsClean(rows[j].id);
    }
    hide CleanId, ValidId, Trim;
  }

  lemma {:induction false} AllUsable(rows: seq<Target>, parses: string -> bool)
    requires forall i :: 0 <= i < |rows| ==> CleanTarget(rows[i], parses)
    ensures Usable(rows) == rows
  {
    hide ValidId, Trim;
    if rows != [] {
      AllUsable(rows[1..], parses);
    }
  }

  lemma {:induction false} FindIdAt(rows: seq<Target>, i: nat)
    requires i < |rows| && UniqueIds(rows)
    ensures FindId(rows, rows[i].id) == Some(rows[i])
  {
    if i > 0 {
      assert rows[0].id != rows[i].id;
      FindIdAt(rows[1..], i - 1);
    }
  }

  lemma {:induction false} FindIdNone(rows: seq<Target>, id: string)
    requires !HasId(rows, id)
    ensures FindId(rows, id) == None
  {
    if rows != [] {
      assert rows[0].id != id;
      forall i | 0 <= i < |rows| - 1 ensures rows[1..][i].id != id { assert rows[1..][i] == rows[i + 1]; }
      FindIdNone(rows[1..], id);
    }
  }

  /** A saved list survives the merge row for row, with the same default, mirrored. */
  lemma SavedListIsMerged(rs: Settings, base: Config, skipFor: UrlPolicy, parses: string -> bool)
    requires Accepted(rs.targets, parses)
    ensures var cfg := Merge(rs, base, skipFor); var d := DefaultIndex(rs.targets);
            && cfg.targets == rs.targets && OnlyDefault(cfg.targets, d)
            && cfg.url == cfg.targets[d].url && cfg.apiKey == cfg.targets[d].apiKey
  {
    var rows := rs.targets;
    var k: nat :| OnlyDefault(rows, k);
    DefaultIndexIs(rows, k);
    AcceptedPrefix(rows, |rows|, parses);
    assert rows[..|rows|] == rows;
    assert CleanTarget(rows[k], parses);
    hide MergedPrefix, UsableUrl, ValidId, Trim;
  }

  predicate ConnectsTo(c: Config, t: Target) {
    c.url == t.url && c.apiKey == t.apiKey
  }

  /** Looking up row i's id connects to row i's url and key; a blank or unknown id connects to the
      default row's. */
  lemma SavedListIsServed(cfg: Config, parses: string -> bool, id: string)
    requires Accepted(cfg.targets, parses)
    ensures var rows := cfg.targets; var c := ConfigForTargetId(cfg, id);
            && DefaultTargetId(cfg) == rows[DefaultIndex(rows)].id
            && (forall i :: 0 <= i < |rows| && rows[i].id == Trim(id) ==>
                  && ConnectsTo(c, rows[i]) && c.url == rows[i].url && c.apiKey == rows[i].apiKey
                  && c.skipTls == if rows[i].skipTls.Some? then rows[i].skipTls.value else cfg.skipTls)
            && (!HasId(rows, Trim(id)) ==>
                  var t := rows[DefaultIndex(rows)];
                  && ConnectsTo(c, t) && c.url == t.url && c.apiKey == t.apiKey
                  && c.skipTls == if t.skipTls.Some? then t.skipTls.value else cfg.skipTls)
  {
    var rows := cfg.targets;
    AllUsable(rows, parses);
    EveryIdNonEmpty(rows, parses);
    hide UsableUrl, ValidId, Trim, Usable, Masked;
    var d := DefaultIndex(rows);
    FindIdAt(rows, d);
    assert CleanTarget(rows[d], parses);
    if HasId(rows, Trim(id)) {
      forall i | 0 <= i < |rows| && rows[i].id == Trim(id) ensures FindId(rows, Trim(id)) == Some(rows[i]) && CleanTarget(rows[i], parses) {
        FindIdAt(rows, i);
      }
    } else {
      FindIdNone(rows, Trim(id));
    }
  }

  lemma EveryIdNonEmpty(rows: seq<Target>, parses: string -> bool)
    requires Accepted(rows, parses)
    ensures forall i :: 0 <= i < |rows| ==> rows[i].id != ""
  {
    forall i | 0 <= i < |rows| ensures rows[i].id != "" {
      assert CleanTarget(rows[i], parses);
    }
  }
}
