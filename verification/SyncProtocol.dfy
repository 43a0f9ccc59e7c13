/** Any interleaving of timer, manual and watcher sync calls in one process, as a state machine:
    internal/baota_sync_run.go, lines 190-205 and 225-307. Each call tries the lock once; the one
    that gets it stores the reports of its script one at a time and then gives the lock back. */
module SyncProtocol {
  import opened Options
  import opened BaotaLookup
  import opened PanelSync
  import opened SyncRun

  /** What a call that got the lock works on: its input, the configuration, and the panels as it
      found them. */
  datatype Job = Job(inp: Input, cfg: Config, start: World)

  /** The reports of the job's targets, from the steps of one after the other. */
  function ReportsOf(env: Env, j: Job): (reps: seq<DomainReport>)
    ensures |reps| == |TargetsOf(j.inp)|
  {
    SyncPrefix(env, j.start, j.cfg, TargetsOf(j.inp), |TargetsOf(j.inp)|).1
  }

  function PanelsAfter(env: Env, j: Job): World {
    SyncPrefix(env, j.start, j.cfg, TargetsOf(j.inp), |TargetsOf(j.inp)|).0
  }

  /** The reports the job stores. */
  function ScriptOf(env: Env, j: Job): seq<Report> {
    Script(j.inp, ReportsOf(env, j))
  }

  datatype Phase = Refused | Active(job: Job, next: nat) | Finished(job: Job)

  /** A stored report together with the call that stored it. */
  datatype Entry = Entry(call: nat, report: Report)

  /** panels is the world the last finished run left. */
  datatype State = State(lock: Option<nat>, log: seq<Entry>, calls: map<nat, Phase>, panels: World)

  datatype Action =
    | TryLock(call: nat, inp: Input, cfg: Config)
    | Store(call: nat)
    | Unlock(call: nat)

  predicate IsActive(s: State, c: nat) {
    c in s.calls && s.calls[c].Active?
  }

  predicate Enabled(env: Env, s: State, a: Action) {
    match a
    case TryLock(c, _, _) => c !in s.calls
    case Store(c) => IsActive(s, c) && s.calls[c].next < |ScriptOf(env, s.calls[c].job)|
    case Unlock(c) => IsActive(s, c) && s.calls[c].next == |ScriptOf(env, s.calls[c].job)|
  }

  function Next(env: Env, s: State, a: Action): State
    requires Enabled(env, s, a)
  {
    match a
    case TryLock(c, inp, cfg) =>
      if s.lock.None? then s.(lock := Some(c), calls := s.calls[c := Active(Job(inp, cfg, s.panels), 0)])
      else s.(calls := s.calls[c := Refused])
    case Store(c) =>
      var p := s.calls[c];
      s.(log := s.log + [Entry(c, ScriptOf(env, p.job)[p.next])], calls := s.calls[c := p.(next := p.next + 1)])
    case Unlock(c) =>
      var j := s.calls[c].job;
      State(None, s.log, s.calls[c := Finished(j)], PanelsAfter(env, j))
  }

  /** The report other replicas read. */
  function Stored(s: State): Option<Entry> {
    if s.log == [] then None else Some(s.log[|s.log| - 1])
  }

  /** The states of a run of the process, one for each action taken and the first. */
  ghost predicate Execution(env: Env, states: seq<State>, actions: seq<Action>) {
    && |states| == |actions| + 1 && states[0] == State(None, [], map[], states[0].panels)
    && forall i :: 0 <= i < |actions| ==>
         Enabled(env, states[i], actions[i]) && states[i + 1] == Next(env, states[i], actions[i])
  }

  // ---------------------------------------------------------------- the invariant

  predicate ScriptOk(s: seq<Report>) {
    && |s| >= 2 && s[0].domains == []
    && (forall i :: 0 <= i < |s| ==> (s[i].running <==> i < |s| - 1))
    && (forall i :: 0 <= i < |s| - 1 ==> Grew(s[i], s[i + 1]))
  }

  /** b's Domains are a's with at most one entry appended. */
  predicate Grew(a: Report, b: Report) {
    a.domains <= b.domains && |b.domains| <= |a.domains| + 1
  }

  /** What may directly follow e in the log: the same call's next report, or, after a final
      report, the first report of another call. */
  predicate Follows(e: Entry, f: Entry) {
    if e.call == f.call then e.report.running && Grew(e.report, f.report)
    else !e.report.running && f.report.running && f.report.domains == []
  }

  predicate Contiguous(log: seq<Entry>) {
    forall i, j, k :: 0 <= i <= j <= k < |log| && log[i].call == log[k].call ==> log[j].call == log[i].call
  }

  predicate LogOk(log: seq<Entry>) {
    Contiguous(log) && forall i :: 0 <= i < |log| - 1 ==> Follows(log[i], log[i + 1])
  }

  /** The end of the log as the active call c left it. */
  predicate ActiveOk(env: Env, s: State, c: nat) {
    && IsActive(s, c) && s.calls[c].next <= |ScriptOf(env, s.calls[c].job)|
    && (if s.calls[c].next == 0 then
          (forall i :: 0 <= i < |s.log| ==> s.log[i].call != c) && (s.log != [] ==> !s.log[|s.log| - 1].report.running)
        else s.log != [] && s.log[|s.log| - 1] == Entry(c, ScriptOf(env, s.calls[c].job)[s.calls[c].next - 1]))
  }

  predicate Inv(env: Env, s: State) {
    && (forall c :: c in s.calls ==> (s.calls[c].Active? <==> s.lock == Some(c)))
    && (s.lock.Some? ==> ActiveOk(env, s, s.lock.value))
    && (s.lock.None? && s.log != [] ==> !s.log[|s.log| - 1].report.running)
    && (forall i :: 0 <= i < |s.log| ==> s.log[i].call in s.calls && !s.calls[s.log[i].call].Refused?)
    && LogOk(s.log)
  }

  lemma ScriptIsOk(env: Env, j: Job)
    ensures ScriptOk(ScriptOf(env, j))
  {
    ScriptShape(j.inp, ReportsOf(env, j));
    hide Script, ReportsOf;
  }

  lemma LogGrows(log: seq<Entry>, e: Entry)
    requires LogOk(log)
    requires log == [] || Follows(log[|log| - 1], e)
    requires log == [] || log[|log| - 1].call == e.call || forall i :: 0 <= i < |log| ==> log[i].call != e.call
    ensures LogOk(log + [e])
  {
    var all := log + [e];
    forall i | 0 <= i < |all| - 1 ensures Follows(all[i], all[i + 1]) {
      if i < |log| - 1 {
        assert Follows(log[i], log[i + 1]);
      }
    }
    forall i, j, k | 0 <= i <= j <= k < |all| && all[i].call == all[k].call ensures all[j].call == all[i].call {
      if k == |log| && j < |log| && i < |log| {
        assert log[|log| - 1].call == e.call;
        assert log[i].call == log[|log| - 1].call;
        assert log[j].call == log[i].call;
      }
    }
  }

  lemma LockKeepsInv(env: Env, s: State, c: nat, inp: Input, cfg: Config)
    requires Inv(env, s) && Enabled(env, s, TryLock(c, inp, cfg))
    ensures Inv(env, Next(env, s, TryLock(c, inp, cfg)))
  {
    hide ScriptOf, LogOk;
    assert forall i :: 0 <= i < |s.log| ==> s.log[i].call != c;
  }

  lemma StoreKeepsInv(env: Env, s: State, c: nat)
    requires Inv(env, s) && Enabled(env, s, Store(c))
    ensures Inv(env, Next(env, s, Store(c)))
  {
    hide ScriptOf;
    assert s.lock == Some(c) && ActiveOk(env, s, c);
    var p := s.calls[c];
    var script := ScriptOf(env, p.job);
    var e := Entry(c, script[p.next]);
    ScriptIsOk(env, p.job);
    if p.next > 0 {
      assert Grew(script[p.next - 1], script[p.next]);
    }
    LogGrows(s.log, e);
    hide LogOk, Grew;
    assert Next(env, s, Store(c)).log[|s.log|] == e;
  }

  lemma UnlockKeepsInv(env: Env, s: State, c: nat)
    requires Inv(env, s) && Enabled(env, s, Unlock(c))
    ensures Inv(env, Next(env, s, Unlock(c)))
  {
    hide LogOk, Grew, ScriptOf, PanelsAfter;
    ScriptIsOk(env, s.calls[c].job);
    assert s.lock == Some(c) && ActiveOk(env, s, c);
  }

  lemma StepKeepsInv(env: Env, s: State, a: Action)
    requires Inv(env, s) && Enabled(env, s, a)
    ensures Inv(env, Next(env, s, a))
  {
    hide Inv, Enabled, Next;
    match a {
      case TryLock(c, inp, cfg) => LockKeepsInv(env, s, c, inp, cfg);
      case Store(c) => StoreKeepsInv(env, s, c);
      case Unlock(c) => UnlockKeepsInv(env, s, c);
    }
  }

  lemma {:induction false} InvHolds(env: Env, states: seq<State>, actions: seq<Action>, n: nat)
    requires Execution(env, states, actions) && n < |states|
    ensures Inv(env, states[n])
  {
    hide ScriptOf, Next, Enabled;
    if n > 0 {
      InvHolds(env, states, actions, n - 1);
      StepKeepsInv(env, states[n - 1], actions[n - 1]);
    }
  }

  // ---------------------------------------------------------------- safety over whole runs

  /** In every state of every execution: at most one call is active, namely the holder of the
      lock; a stored report that says Running was stored by that holder; and the log is a sequence
      of uninterrupted runs in which Domains only grow by appending. */
  lemma SyncSafety(env: Env, states: seq<State>, actions: seq<Action>, n: nat)
    requires Execution(env, states, actions) && n < |states|
    ensures var s := states[n];
            && (forall c: nat, d: nat :: IsActive(s, c) && IsActive(s, d) ==> c == d)
            && (forall c: nat :: IsActive(s, c) ==> s.lock == Some(c))
            && (Stored(s).Some? && Stored(s).value.report.running ==> s.lock == Some(Stored(s).value.call))
            && Contiguous(s.log)
            && (forall i :: 0 <= i < |s.log| - 1 ==> Follows(s.log[i], s.log[i + 1]))
  {
    InvHolds(env, states, actions, n);
    hide Execution, ScriptOf;
  }

  /** A call refused the lock never stores anything: its attempt leaves the log as it is, and no
      later entry is its own. */
  lemma RefusedStoresNothing(env: Env, states: seq<State>, actions: seq<Action>, n: nat, c: nat)
    requires Execution(env, states, actions) && n < |actions|
    requires actions[n].TryLock? && actions[n].call == c && states[n].lock.Some?
    ensures states[n + 1].log == states[n].log
    ensures forall m :: n < m < |states| ==> forall i :: 0 <= i < |states[m].log| ==> states[m].log[i].call != c
  {
    hide ScriptOf;
    forall m | n < m < |states| ensures forall i :: 0 <= i < |states[m].log| ==> states[m].log[i].call != c {
      RefusedStays(env, states, actions, n + 1, m, c);
      InvHolds(env, states, actions, m);
    }
  }

  lemma {:induction false} RefusedStays(env: Env, states: seq<State>, actions: seq<Action>, n: nat, m: nat, c: nat)
    requires Execution(env, states, actions) && n <= m < |states|
    requires c in states[n].calls && states[n].calls[c].Refused?
    ensures c in states[m].calls && states[m].calls[c].Refused?
  {
    hide ScriptOf;
    if n < m {
      RefusedStays(env, states, actions, n, m - 1, c);
      assert Enabled(env, states[m - 1], actions[m - 1]);
    }
  }

  // ---------------------------------------------------------------- what a finished call has stored

  /** The reports call c has stored, in order. */
  function Mine(log: seq<Entry>, c: nat): seq<Report> {
    if log == [] then []
    else
      var rest, last := Mine(log[..|log| - 1], c), log[|log| - 1];
      if last.call == c then rest + [last.report] else rest
  }

  /** What call c has stored, by the phase it is in. */
  predicate MineOk(env: Env, s: State, c: nat) {
    if c !in s.calls then Mine(s.log, c) == []
    else match s.calls[c]
      case Refused => Mine(s.log, c) == []
      case Active(j, n) => n <= |ScriptOf(env, j)| && Mine(s.log, c) == ScriptOf(env, j)[..n]
      case Finished(j) => Mine(s.log, c) == ScriptOf(env, j)
  }

  lemma StepKeepsMine(env: Env, s: State, a: Action, c: nat)
    requires Enabled(env, s, a) && MineOk(env, s, c) && MineOk(env, s, a.call)
    ensures MineOk(env, Next(env, s, a), c)
  {
    hide ScriptOf, PanelsAfter;
    if a.Store? {
      var p := s.calls[a.call];
      var script := ScriptOf(env, p.job);
      assert (s.log + [Entry(a.call, script[p.next])])[..|s.log|] == s.log;
      assert script[..p.next + 1] == script[..p.next] + [script[p.next]];
    } else if a.Unlock? {
      var script := ScriptOf(env, s.calls[a.call].job);
      assert script[..|script|] == script;
    }
  }

  lemma {:induction false} MineHolds(env: Env, states: seq<State>, actions: seq<Action>, n: nat, c: nat)
    requires Execution(env, states, actions) && n < |states|
    ensures MineOk(env, states[n], c)
  {
    hide ScriptOf, MineOk, Next, Enabled;
    if n == 0 {
      NothingYet(env, states[0], c);
    } else {
      MineHolds(env, states, actions, n - 1, c);
      MineHolds(env, states, actions, n - 1, actions[n - 1].call);
      StepKeepsMine(env, states[n - 1], actions[n - 1], c);
    }
  }

  lemma NothingYet(env: Env, s: State, c: nat)
    requires s.log == [] && s.calls == map[]
    ensures MineOk(env, s, c)
  {
  }

  /** In an uninterrupted log the entries of a call stand in one piece. */
  lemma {:induction false} OnePiece(log: seq<Entry>, c: nat) returns (k: nat)
    requires Contiguous(log)
    ensures k + |Mine(log, c)| <= |log|
    ensures forall i :: 0 <= i < |Mine(log, c)| ==> log[k + i] == Entry(c, Mine(log, c)[i])
    ensures forall i :: 0 <= i < |log| && log[i].call == c ==> k <= i < k + |Mine(log, c)|
    decreases |log|
  {
    k := 0;
    if log != [] {
      var n := |log| - 1;
      assert Contiguous(log[..n]);
      k := OnePiece(log[..n], c);
      var before := Mine(log[..n], c);
      if log[n].call == c {
        if before == [] {
          k := n;
          assert forall i :: 0 <= i < n ==> log[..n][i].call != c;
        } else {
          assert log[..n][k + 0] == Entry(c, before[0]);
          assert forall j :: k <= j < n ==> log[..n][j].call == c;
          assert log[..n][n - 1].call == c;
        }
      } else {
        assert forall i :: 0 <= i < n ==> log[..n][i] == log[i];
      }
    }
  }

  /** The reports of a finished call, in any execution: its entries of the log are one piece and
      exactly its script; only the last says that the run is over; and that one's Domains, of which
      every earlier report holds the first so many, has one entry for each target, in order. */
  lemma FinishedCall(env: Env, states: seq<State>, actions: seq<Action>, n: nat, c: nat) returns (k: nat)
    requires Execution(env, states, actions) && n < |states|
    requires c in states[n].calls && states[n].calls[c].Finished?
    ensures var log, job := states[n].log, states[n].calls[c].job; var script := ScriptOf(env, job); var m := |script|;
            && 2 <= m && k + m <= |log| && (forall i :: 0 <= i < m ==> log[k + i] == Entry(c, script[i]))
            && (forall i :: 0 <= i < |log| ==> (log[i].call == c <==> k <= i < k + m))
            && (forall i :: 0 <= i < m ==> (script[i].running <==> i < m - 1) && script[i].domains <= script[m - 1].domains)
            && var targets, domains := TargetsOf(job.inp), script[m - 1].domains;
            && |domains| == |targets|
            && forall i :: 0 <= i < |targets| ==>
                 && domains[i].domain == targets[i].domain && domains[i].url == targets[i].url
                 && domains[i].targetId == PanelIdOf(job.cfg, targets[i])
  {
    MineHolds(env, states, actions, n, c);
    SyncSafety(env, states, actions, n);
    k := OnePiece(states[n].log, c);
    var job := states[n].calls[c].job;
    ScriptShape(job.inp, ReportsOf(env, job));
    ReportsFollowTargets(env, job.start, job.cfg, TargetsOf(job.inp), |TargetsOf(job.inp)|);
    hide Execution, Script, SyncPrefix, TargetsOf, Mine, PanelIdOf;
    assert Mine(states[n].log, c) == ScriptOf(env, job);
  }
}
