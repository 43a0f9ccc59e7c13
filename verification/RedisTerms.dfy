/** What each option puts on the redis-server command line: internal/app_redis_k8s_tuning.go and
    internal/app_redis_k8s_deploy.go, lines 168-266. */
module RedisTerms {
  import opened Text
  import opened RedisCommand

  /** The words a and a + 1 are the flag and the number. */
  predicate Sets(words: seq<string>, a: nat, flag: string, n: nat) {
    a + 1 < |words| && words[a] == flag && AllDigits(words[a + 1]) && DigitsValue(words[a + 1]) == n
  }

  lemma SetsDigits(words: seq<string>, a: nat, flag: string, n: nat)
    requires a + 1 < |words| && words[a] == flag && words[a + 1] == Digits(n)
    ensures Sets(words, a, flag, n)
  {
    DigitsRoundTrip(n);
  }

  lemma TuningWords(o: Opts)
    ensures var w := EnterpriseArgsArgv(o);
            && |w| == (if o.ioThreads <= 0 then 14 else 18)
            && w[0] == "--tcp-backlog" && w[1] == Digits(if o.tcpBacklog > 0 then o.tcpBacklog else 511)
            && w[2] == "--tcp-keepalive" && w[3] == Digits(if o.tcpKeepalive > 0 then o.tcpKeepalive else 60)
            && w[4] == "--timeout" && w[5] == Digits(if o.clientTimeoutSec > 0 then o.clientTimeoutSec else 0)
            && w[6] == "--maxclients" && w[7] == Digits(if o.maxClients > 0 then o.maxClients else 10000)
            && w[8] == "--hz" && w[9] == Digits(if o.hz > 0 then o.hz else 10)
            && (o.ioThreads > 0 ==> w[14] == "--io-threads" && w[15] == Digits(o.ioThreads))
  {
    hide Digits;
  }

  lemma TuningSwitches(o: Opts)
    ensures var w := EnterpriseArgsArgv(o);
            && w[10..14] == ["--lazyfree-lazy-eviction", if o.lazyfreeLazyEviction then "yes" else "no",
                             "--lazyfree-lazy-expire", if o.lazyfreeLazyExpire then "yes" else "no"]
            && (o.ioThreads > 0 ==> w[16..] == ["--io-threads-do-reads", "yes"])
  {
    hide Digits;
  }

  /** The tuning flags in their order: a number below 1 stands for the default, except for the timeout,
      whose default is 0, and for the I/O threads, which are then left out. */
  lemma TuningMeans(o: Opts)
    ensures var w := EnterpriseArgsArgv(o);
            && Sets(w, 0, "--tcp-backlog", if o.tcpBacklog > 0 then o.tcpBacklog else 511)
            && Sets(w, 2, "--tcp-keepalive", if o.tcpKeepalive > 0 then o.tcpKeepalive else 60)
            && Sets(w, 4, "--timeout", if o.clientTimeoutSec > 0 then o.clientTimeoutSec else 0)
            && Sets(w, 6, "--maxclients", if o.maxClients > 0 then o.maxClients else 10000)
            && Sets(w, 8, "--hz", if o.hz > 0 then o.hz else 10)
            && w[10..14] == ["--lazyfree-lazy-eviction", if o.lazyfreeLazyEviction then "yes" else "no",
                             "--lazyfree-lazy-expire", if o.lazyfreeLazyExpire then "yes" else "no"]
            && (o.ioThreads <= 0 ==> |w| == 14)
            && (o.ioThreads > 0 ==> |w| == 18 && Sets(w, 14, "--io-threads", o.ioThreads) && w[16..] == ["--io-threads-do-reads", "yes"])
  {
    TuningWords(o);
    TuningSwitches(o);
    hide Sets, Digits, DigitsValue, EnterpriseArgsArgv;
    var w := EnterpriseArgsArgv(o);
    SetsDigits(w, 0, "--tcp-backlog", if o.tcpBacklog > 0 then o.tcpBacklog else 511);
    SetsDigits(w, 2, "--tcp-keepalive", if o.tcpKeepalive > 0 then o.tcpKeepalive else 60);
    SetsDigits(w, 4, "--timeout", if o.clientTimeoutSec > 0 then o.clientTimeoutSec else 0);
    SetsDigits(w, 6, "--maxclients", if o.maxClients > 0 then o.maxClients else 10000);
    SetsDigits(w, 8, "--hz", if o.hz > 0 then o.hz else 10);
    if o.ioThreads > 0 {
      SetsDigits(w, 14, "--io-threads", o.ioThreads);
    }
  }

  predicate IsPolicy(p: string) {
    || p == "noeviction" || p == "allkeys-lru" || p == "volatile-lru" || p == "allkeys-lfu" || p == "volatile-lfu"
    || p == "allkeys-random" || p == "volatile-random" || p == "volatile-ttl"
  }

  /** A policy that Redis knows, up to case and white space around it, is used; any other gives way
      to allkeys-lru. */
  lemma PolicyMeans(o: Opts)
    ensures var p := Trim(Lower(o.maxmemoryPolicy)); Policy(o) == if IsPolicy(p) then p else "allkeys-lru"
  {
    TrimIdempotent(Lower(o.maxmemoryPolicy));
    assert Trim("allkeys-lru") == "allkeys-lru" by {
      assert !IsSpace("allkeys-lru"[0]) && !IsSpace("allkeys-lru"[10]);
    }
    hide Trim, Lower;
  }

  // ---------------------------------------------------------------- save lines

  /** Snapshots are switched off: some line is "none" or "off", up to case and white space around it, or
      the only line is blank or a pair of double quotes. */
  predicate SwitchedOff(lines: seq<string>) {
    || (exists i :: 0 <= i < |lines| && (Lower(Trim(lines[i])) == "none" || Lower(Trim(lines[i])) == "off"))
    || (|lines| == 1 && (Trim(Lower(lines[0])) == "" || Trim(Lower(lines[0])) == "\"\""
                         || Trim(Lower(lines[0])) == "none" || Trim(Lower(lines[0])) == "off"))
  }

  lemma OffMeans(lines: seq<string>)
    ensures RdbOff(lines) <==> SwitchedOff(lines)
  {
    hide Trim, Lower;
    if i :| 0 <= i < |lines| && OffLine(lines[i]) {
      assert lines[i] in lines;
    }
    if line :| line in lines && OffLine(line) {
      var i :| 0 <= i < |lines| && lines[i] == line;
    }
  }

  lemma {:induction false} SaveRulesApart(a: seq<string>, b: seq<string>)
    ensures SaveRules(a + b) == SaveRules(a) + SaveRules(b)
    decreases |b|
  {
    hide SaveTokens;
    if b == [] {
      assert a + b == a;
    } else {
      SaveRulesApart(a, b[..|b| - 1]);
      assert (a + b)[..|a + b| - 1] == a + b[..|b| - 1];
    }
  }

  lemma SaveRuleOfOne(line: string)
    ensures SaveRules([line]) == SaveTokens(line)
  {
    hide SaveTokens;
    assert [line][..0] == [];
  }

  /** Snapshot rules: switched off means one empty rule; else each line gives, in its turn, a rule of its
      first two fields if it has two. */
  lemma SaveLinesMean(a: seq<string>, line: string, b: seq<string>)
    ensures var f := Fields(Trim(line)); var rule := if |f| < 2 then [] else ["--save", f[0], f[1]];
            Texts(RdbTokens(a + [line] + b))
            == if SwitchedOff(a + [line] + b) then ["--save", ""] else Texts(SaveRules(a)) + rule + Texts(SaveRules(b))
  {
    OffMeans(a + [line] + b);
    SaveTexts(line);
    SaveRuleOfOne(line);
    SaveRulesApart(a, [line]);
    SaveRulesApart(a + [line], b);
    TextsAppend(SaveRules(a), SaveTokens(line));
    TextsAppend(SaveRules(a) + SaveTokens(line), SaveRules(b));
    hide SaveRules, SaveTokens, Texts, RdbOff, SwitchedOff, Fields, Trim;
  }

  // ---------------------------------------------------------------- extra arguments

  lemma {:induction false} ExtraTokensApart(a: seq<string>, b: seq<string>)
    ensures ExtraTokens(a + b) == ExtraTokens(a) + ExtraTokens(b)
    decreases |b|
  {
    hide Trim;
    if b == [] {
      assert a + b == a;
    } else {
      ExtraTokensApart(a, b[..|b| - 1]);
      assert (a + b)[..|a + b| - 1] == a + b[..|b| - 1];
    }
  }

  lemma {:induction false} ExtraFieldsApart(a: seq<string>, b: seq<string>)
    ensures ExtraFields(a + b) == ExtraFields(a) + ExtraFields(b)
    decreases |b|
  {
    hide Trim, Fields;
    if b == [] {
      assert a + b == a;
    } else {
      ExtraFieldsApart(a, b[..|b| - 1]);
      assert (a + b)[..|a + b| - 1] == a + b[..|b| - 1];
    }
  }

  /** The extra arguments come one after another, in their order: in the shell form each as one word
      unless it is blank, in the argv form as its fields. */
  lemma ExtrasMean(a: seq<string>, arg: string, b: seq<string>)
    ensures Texts(ExtraTokens(a + [arg] + b))
            == Texts(ExtraTokens(a)) + (if Trim(arg) == "" then [] else [Trim(arg)]) + Texts(ExtraTokens(b))
    ensures ExtraFields(a + [arg] + b) == ExtraFields(a) + Fields(Trim(arg)) + ExtraFields(b)
  {
    OneExtra(arg);
    ExtraTokensApart(a, [arg]);
    ExtraTokensApart(a + [arg], b);
    ExtraFieldsApart(a, [arg]);
    ExtraFieldsApart(a + [arg], b);
    TextsAppend(ExtraTokens(a), ExtraTokens([arg]));
    TextsAppend(ExtraTokens(a) + ExtraTokens([arg]), ExtraTokens(b));
    hide ExtraTokens, ExtraFields, Texts, Trim, Fields;
  }

  lemma OneExtra(arg: string)
    ensures Texts(ExtraTokens([arg])) == if Trim(arg) == "" then [] else [Trim(arg)]
    ensures ExtraFields([arg]) == Fields(Trim(arg))
  {
    FieldsOfBlank();
    PrintEmpty();
    hide Trim, Fields, Texts;
    assert [arg][..0] == [];
    assert ExtraTokens([]) == [];
    if Trim(arg) != "" {
      assert ExtraTokens([arg]) == [Quoted(Trim(arg))];
      TextsAt([Quoted(Trim(arg))], [Trim(arg)]);
    }
  }
}
