/** The redis-server command line, printed once for "sh -c" and once as an argument vector:
    internal/app_redis_k8s_tuning.go and internal/app_redis_k8s_deploy.go, lines 168-266. */
module RedisCommand {
  import opened Text

  // ---------------------------------------------------------------- the POSIX shell's words

  /** Sections 2.2 and 2.3 of POSIX.1-2017 XCU Shell Command Language, for one simple command:
      quoting by backslash, single and double quotes, and parameter expansion inside double
      quotes. Anything else that is special when unquoted leads to Unsupported. */
  datatype Mode = Bare | BareEscape | Single | Double | DoubleEscape | Param(name: string)

  datatype Lexer =
    | Lexer(mode: Mode, words: seq<string>, inWord: bool, word: string)
    | Unsupported

  type Env = map<string, string>

  /** Characters that must or may need quoting (section 2.2), and the reserved words ! { }. */
  predicate Special(c: char) {
    || c == '|' || c == '&' || c == ';' || c == '<' || c == '>' || c == '(' || c == ')' || c == '$'
    || c == '`' || c == '\\' || c == '"' || c == '\'' || c == ' ' || c == '\t' || c == '\n'
    || c == '*' || c == '?' || c == '[' || c == '#' || c == '~' || c == '=' || c == '%'
    || c == '!' || c == '{' || c == '}'
  }

  predicate NameChar(c: char) {
    'a' <= c <= 'z' || 'A' <= c <= 'Z' || '0' <= c <= '9' || c == '_'
  }

  function Expand(name: string, env: Env): string {
    if name in env then env[name] else ""
  }

  function EndWord(l: Lexer): seq<string>
    requires l.Lexer?
  {
    if l.inWord then l.words + [l.word] else l.words
  }

  function Add(l: Lexer, mode: Mode, text: string): Lexer
    requires l.Lexer?
  {
    Lexer(mode, l.words, true, l.word + text)
  }

  function InDouble(l: Lexer, c: char): Lexer
    requires l.Lexer?
  {
    if c == '"' then l.(mode := Bare)
    else if c == '\\' then l.(mode := DoubleEscape)
    else if c == '$' then l.(mode := Param(""))
    else if c == '`' then Unsupported
    else Add(l, Double, [c])
  }

  function Step(l: Lexer, c: char, env: Env): Lexer {
    if l.Unsupported? then l else
    match l.mode
    case Bare =>
      if c == ' ' || c == '\t' then Lexer(Bare, EndWord(l), false, "")
      else if c == '\'' then Add(l, Single, "")
      else if c == '"' then Add(l, Double, "")
      else if c == '\\' then Add(l, BareEscape, "")
      else if Special(c) then Unsupported
      else Add(l, Bare, [c])
    case BareEscape => if c == '\n' then l.(mode := Bare) else Add(l, Bare, [c])
    case Single => if c == '\'' then l.(mode := Bare) else Add(l, Single, [c])
    case Double => InDouble(l, c)
    case DoubleEscape =>
      if c == '\n' then l.(mode := Double)
      else if c == '$' || c == '`' || c == '"' || c == '\\' then Add(l, Double, [c])
      else Add(l, Double, ['\\', c])
    case Param(name) =>
      if NameChar(c) && !(name == "" && '0' <= c <= '9') then l.(mode := Param(name + [c]))
      else if name == "" then Unsupported
      else InDouble(Add(l, Double, Expand(name, env)), c)
  }

  function Run(s: string, l: Lexer, env: Env): Lexer {
    if s == "" then l else Run(s[1..], Step(l, s[0], env), env)
  }

  datatype Words = Words(words: seq<string>) | NotWords

  /** The words of a command, or NotWords when it ends inside quotes or is not in the subset. */
  function ShellWords(command: string, env: Env): Words {
    var l := Run(command, Lexer(Bare, [], false, ""), env);
    if l.Lexer? && l.mode == Bare then Words(EndWord(l)) else NotWords
  }

  // ---------------------------------------------------------------- lexing printed pieces

  lemma {:induction false} RunAppend(a: string, b: string, l: Lexer, env: Env)
    ensures Run(a + b, l, env) == Run(b, Run(a, l, env), env)
  {
    if a == "" {
      assert a + b == b;
    } else {
      assert (a + b)[1..] == a[1..] + b;
      RunAppend(a[1..], b, Step(l, a[0], env), env);
    }
  }

  /** The lexer after the complete words ws and none of the next. */
  function After(ws: seq<string>): Lexer
    requires ws != []
  {
    Lexer(Bare, ws[..|ws| - 1], true, ws[|ws| - 1])
  }

  predicate WordChar(c: char) {
    'a' <= c <= 'z' || '0' <= c <= '9' || c == '-'
  }

  predicate AllWordChars(s: string) {
    forall i :: 0 <= i < |s| ==> WordChar(s[i])
  }

  predicate Plain(s: string) {
    s != "" && AllWordChars(s)
  }

  lemma {:induction false} RunPlain(s: string, l: Lexer, env: Env)
    requires l.Lexer? && l.mode == Bare && AllWordChars(s)
    ensures Run(s, l, env) == if s == "" then l else Add(l, Bare, s)
  {
    if s != "" {
      var l1 := Step(l, s[0], env);
      assert l1 == Add(l, Bare, [s[0]]);
      RunPlain(s[1..], l1, env);
      assert l.word + [s[0]] + s[1..] == l.word + s;
      assert l.word + [s[0]] + "" == l.word + [s[0]];
    }
  }

  /** strings.ReplaceAll(s, `'`, `'\''`) */
  function EscapeQuotes(s: string): string {
    if s == "" then "" else (if s[0] == '\'' then "'\\''" else [s[0]]) + EscapeQuotes(s[1..])
  }

  function ShellQuoteForSh(s: string): string {
    "'" + EscapeQuotes(s) + "'"
  }

  lemma {:induction false} RunEscaped(s: string, l: Lexer, env: Env)
    requires l.Lexer? && l.mode == Single && l.inWord
    ensures Run(EscapeQuotes(s), l, env) == Add(l, Single, s)
  {
    if s == "" {
      assert l.word + "" == l.word;
    } else {
      var head := if s[0] == '\'' then "'\\''" else [s[0]];
      var l1 := Add(l, Single, [s[0]]);
      assert Run(head, l, env) == l1 by {
        if s[0] == '\'' {
          RunFourQuotes(l, env);
        } else {
          assert head[1..] == "";
        }
      }
      RunAppend(head, EscapeQuotes(s[1..]), l, env);
      RunEscaped(s[1..], l1, env);
      assert l.word + [s[0]] + s[1..] == l.word + s;
    }
  }

  lemma RunFourQuotes(l: Lexer, env: Env)
    requires l.Lexer? && l.mode == Single && l.inWord
    ensures Run("'\\''", l, env) == Add(l, Single, ['\''])
  {
    var s := "'\\''";
    assert s[1..] == "\\''" && s[1..][1..] == "''" && s[1..][1..][1..] == "'" && s[1..][1..][1..][1..] == "";
    var l1 := l.(mode := Bare);
    assert Step(l, '\'', env) == l1;
    var l2 := Step(l1, '\\', env);
    assert l1.word + "" == l.word;
    assert l2 == l.(mode := BareEscape);
    var l3 := Step(l2, '\'', env);
    assert l3 == Add(l, Bare, ['\'']);
    assert l3.word + "" == l3.word;
    var l4 := Step(l3, '\'', env);
    assert l4 == Add(l, Single, ['\'']);
    assert Run("'", l3, env) == Run("", l4, env);
    assert Run("''", l2, env) == Run("'", l3, env);
    assert Run("\\''", l1, env) == Run("''", l2, env);
  }

  /** A quoted text is read back as itself, whatever it holds. */
  lemma RunQuoted(s: string, l: Lexer, env: Env)
    requires l.Lexer? && l.mode == Bare
    ensures Run(ShellQuoteForSh(s), l, env) == Add(l, Bare, s)
  {
    var open := Add(l, Single, "");
    assert l.word + "" == l.word;
    assert Run("'", l, env) == open by { assert "'"[1..] == ""; }
    RunEscaped(s, open, env);
    var inner := Add(open, Single, s);
    assert Run("'", inner, env) == inner.(mode := Bare) by { assert "'"[1..] == ""; }
    RunAppend("'" + EscapeQuotes(s), "'", l, env);
    RunAppend("'", EscapeQuotes(s), l, env);
  }

  // ---------------------------------------------------------------- command lines as tokens

  /** A word of the shell form: printed as it is, or quoted. */
  datatype Token = Raw(text: string) | Quoted(text: string)

  function PrintToken(t: Token): string {
    match t
    case Raw(s) => s
    case Quoted(s) => ShellQuoteForSh(s)
  }

  function Piece(t: Token): string {
    " " + PrintToken(t)
  }

  /** Each token with a space before it. */
  function Print(ts: seq<Token>): string {
    if ts == [] then "" else Print(ts[..|ts| - 1]) + Piece(ts[|ts| - 1])
  }

  function Texts(ts: seq<Token>): (r: seq<string>)
    ensures |r| == |ts|
  {
    if ts == [] then [] else Texts(ts[..|ts| - 1]) + [ts[|ts| - 1].text]
  }

  predicate Printable(ts: seq<Token>) {
    forall i :: 0 <= i < |ts| ==> ts[i].Raw? ==> Plain(ts[i].text)
  }

  lemma RunToken(t: Token, ws: seq<string>, env: Env)
    requires ws != [] && (t.Raw? ==> Plain(t.text))
    ensures Run(Piece(t), After(ws), env) == After(ws + [t.text])
  {
    var l := Lexer(Bare, ws, false, "");
    assert ws[..|ws| - 1] + [ws[|ws| - 1]] == ws;
    assert Step(After(ws), ' ', env) == l;
    assert Run(" ", After(ws), env) == l by { assert " "[1..] == ""; }
    RunAppend(" ", PrintToken(t), After(ws), env);
    match t {
      case Raw(s) => RunPlain(s, l, env);
      case Quoted(s) => RunQuoted(s, l, env);
    }
    assert "" + t.text == t.text;
    assert (ws + [t.text])[..|ws|] == ws;
  }

  lemma {:induction false} RunPrinted(ts: seq<Token>, ws: seq<string>, env: Env)
    requires ws != [] && Printable(ts)
    ensures Run(Print(ts), After(ws), env) == After(ws + Texts(ts))
  {
    if ts == [] {
      assert ws + Texts(ts) == ws;
    } else {
      var init, last := ts[..|ts| - 1], ts[|ts| - 1];
      RunPrinted(init, ws, env);
      RunAppend(Print(init), Piece(last), After(ws), env);
      RunToken(last, ws + Texts(init), env);
      assert ws + Texts(init) + [last.text] == ws + Texts(ts);
    }
  }

  lemma {:induction false} PrintAppend(a: seq<Token>, b: seq<Token>)
    ensures Print(a + b) == Print(a) + Print(b)
  {
    hide Piece;
    if b == [] {
      assert a + b == a;
    } else {
      var init, last := b[..|b| - 1], b[|b| - 1];
      PrintAppend(a, init);
      PrintSnoc(init, last);
      PrintSnoc(a + init, last);
      hide Print;
      assert init + [last] == b && a + init + [last] == a + b;
      Associate(Print(a), Print(init), Piece(last));
    }
  }

  lemma Associate(x: string, y: string, z: string)
    ensures (x + y) + z == x + (y + z)
  {
  }

  lemma {:induction false} TextsAppend(a: seq<Token>, b: seq<Token>)
    ensures Texts(a + b) == Texts(a) + Texts(b)
  {
    if b == [] {
      assert a + b == a;
    } else {
      assert (a + b)[..|a + b| - 1] == a + b[..|b| - 1];
      TextsAppend(a, b[..|b| - 1]);
    }
  }

  lemma {:induction false} TextsAt(ts: seq<Token>, ws: seq<string>)
    requires |ws| == |ts| && forall i :: 0 <= i < |ts| ==> ts[i].text == ws[i]
    ensures Texts(ts) == ws
  {
    if ts != [] {
      TextsAt(ts[..|ts| - 1], ws[..|ws| - 1]);
    }
  }

  // ---------------------------------------------------------------- the options and both forms

  datatype Opts = Opts(
    password: string, maxmemory: string, maxmemoryPolicy: string, appendonly: bool,
    tcpBacklog: int, tcpKeepalive: int, clientTimeoutSec: int, maxClients: int, hz: int,
    lazyfreeLazyEviction: bool, lazyfreeLazyExpire: bool, ioThreads: int,
    rdbSaveLines: seq<string>, extraRedisServerArgs: seq<string>)

  function MaxmemPolicyOrDefault(p: string): string {
    var q := Trim(Lower(p));
    if q in {"noeviction", "allkeys-lru", "volatile-lru", "allkeys-lfu", "volatile-lfu",
             "allkeys-random", "volatile-random", "volatile-ttl"} then q
    else "allkeys-lru"
  }

  function Memory(o: Opts): string {
    if Trim(o.maxmemory) == "" then "256mb" else Trim(o.maxmemory)
  }

  function Policy(o: Opts): string {
    Trim(MaxmemPolicyOrDefault(o.maxmemoryPolicy))
  }

  function YesNo(b: bool): string {
    if b then "yes" else "no"
  }

  function Positive(n: int, default: nat): nat {
    if n <= 0 then default else n
  }

  function ShellFlag(name: string, value: string): string {
    " " + name + " " + value
  }

  function EnterpriseArgsShell(o: Opts): string {
    ShellFlag("--tcp-backlog", Digits(Positive(o.tcpBacklog, 511)))
    + ShellFlag("--tcp-keepalive", Digits(Positive(o.tcpKeepalive, 60)))
    + ShellFlag("--timeout", Digits(Positive(o.clientTimeoutSec, 0)))
    + ShellFlag("--maxclients", Digits(Positive(o.maxClients, 10000)))
    + ShellFlag("--hz", Digits(Positive(o.hz, 10)))
    + ShellFlag("--lazyfree-lazy-eviction", YesNo(o.lazyfreeLazyEviction))
    + ShellFlag("--lazyfree-lazy-expire", YesNo(o.lazyfreeLazyExpire))
    + (if o.ioThreads > 0 then ShellFlag("--io-threads", Digits(o.ioThreads)) + ShellFlag("--io-threads-do-reads", "yes")
       else "")
  }

  function EnterpriseArgsArgv(o: Opts): seq<string> {
    ["--tcp-backlog", Digits(Positive(o.tcpBacklog, 511)),
     "--tcp-keepalive", Digits(Positive(o.tcpKeepalive, 60)),
     "--timeout", Digits(Positive(o.clientTimeoutSec, 0)),
     "--maxclients", Digits(Positive(o.maxClients, 10000)),
     "--hz", Digits(Positive(o.hz, 10)),
     "--lazyfree-lazy-eviction", YesNo(o.lazyfreeLazyEviction),
     "--lazyfree-lazy-expire", YesNo(o.lazyfreeLazyExpire)]
    + (if o.ioThreads > 0 then ["--io-threads", Digits(o.ioThreads), "--io-threads-do-reads", "yes"] else [])
  }

  // ---------------------------------------------------------------- RDB save lines

  predicate OffWord(s: string) {
    s == "none" || s == "off"
  }

  /** A list of one line also switches RDB off when it is blank or a pair of double quotes. */
  predicate OffAlone(line: string) {
    var x := Trim(Lower(line));
    x == "" || OffWord(x) || x == "\"\""
  }

  predicate OffLine(line: string) {
    OffWord(Lower(Trim(line)))
  }

  predicate RdbOff(lines: seq<string>) {
    (|lines| == 1 && OffAlone(lines[0])) || exists line :: line in lines && OffLine(line)
  }

  function SaveTokens(line: string): seq<Token> {
    var f := Fields(Trim(line));
    if |f| < 2 then [] else [Raw("--save"), Quoted(f[0]), Quoted(f[1])]
  }

  function SaveRules(lines: seq<string>): seq<Token> {
    if lines == [] then [] else SaveRules(lines[..|lines| - 1]) + SaveTokens(lines[|lines| - 1])
  }

  /** What the save lines mean: one empty rule if any line switches RDB off, else one rule for
      each line with at least two fields. */
  function RdbTokens(lines: seq<string>): seq<Token> {
    if RdbOff(lines) then [Raw("--save"), Quoted("")] else SaveRules(lines)
  }

  lemma BlankLineSavesNothing(line: string)
    requires Trim(line) == ""
    ensures SaveTokens(line) == [] && !OffLine(line)
  {
    assert Fields("") == [];
  }

  lemma SaveOffPrints()
    ensures Print([Raw("--save"), Quoted("")]) == " --save ''"
  {
    var ts := [Raw("--save"), Quoted("")];
    assert ts[..1] == [Raw("--save")] && ts[..1][..0] == [];
    assert Print([Raw("--save")]) == "" + Piece(Raw("--save"));
  }

  lemma SaveTokensPrint(line: string)
    requires |Fields(Trim(line))| >= 2
    ensures var f := Fields(Trim(line));
            Print(SaveTokens(line)) == " --save " + ShellQuoteForSh(f[0]) + " " + ShellQuoteForSh(f[1])
  {
    hide Print, Fields, Trim, ShellQuoteForSh;
    var f := Fields(Trim(line));
    SavePrints(f[0], f[1]);
  }

  lemma SavePrints(first: string, second: string)
    ensures Print([Raw("--save"), Quoted(first), Quoted(second)])
            == " --save " + ShellQuoteForSh(first) + " " + ShellQuoteForSh(second)
  {
    hide Print, ShellQuoteForSh;
    PrintEmpty();
    PrintSnoc([], Raw("--save"));
    assert [] + [Raw("--save")] == [Raw("--save")];
    SaveStart();
    QuotedPairPrints(first, second);
  }

  lemma SaveStart()
    ensures "" + Piece(Raw("--save")) == " --save"
  {
  }

  lemma QuotedPairPrints(first: string, second: string)
    requires Print([Raw("--save")]) == " --save"
    ensures Print([Raw("--save"), Quoted(first), Quoted(second)])
            == " --save " + ShellQuoteForSh(first) + " " + ShellQuoteForSh(second)
  {
    var a, b, c := Raw("--save"), Quoted(first), Quoted(second);
    var x, y := ShellQuoteForSh(first), ShellQuoteForSh(second);
    PrintSnoc([a], b);
    PrintSnoc([a, b], c);
    hide Print, ShellQuoteForSh;
    assert [a] + [b] == [a, b] && [a, b] + [c] == [a, b, c];
    assert " --save" + (" " + x) + (" " + y) == " --save " + x + " " + y;
  }

  /** What the loop does with one line: switch RDB off, or add the line's tokens. */
  lemma SaveStep(lines: seq<string>, i: nat)
    requires i < |lines|
    ensures SaveRules(lines[..i + 1]) == SaveRules(lines[..i]) + SaveTokens(lines[i])
    ensures Trim(lines[i]) == "" ==> SaveTokens(lines[i]) == []
    ensures OffLine(lines[i]) ==> RdbOff(lines)
  {
    assert lines[..i + 1][..i] == lines[..i];
    if Trim(lines[i]) == "" {
      BlankLineSavesNothing(lines[i]);
    }
    assert lines[i] in lines;
  }

  lemma SaveTexts(line: string)
    ensures Texts([Raw("--save"), Quoted("")]) == ["--save", ""]
    ensures var f := Fields(Trim(line));
            Texts(SaveTokens(line)) == if |f| < 2 then [] else ["--save", f[0], f[1]]
  {
    TextsAt([Raw("--save"), Quoted("")], ["--save", ""]);
    var f := Fields(Trim(line));
    if |f| >= 2 {
      TextsAt(SaveTokens(line), ["--save", f[0], f[1]]);
    }
  }

  predicate NoneOff(lines: seq<string>) {
    forall line :: line in lines ==> !OffLine(line)
  }

  /** One line of the loop that follows. */
  method RdbLineArgv(line: string) returns (off: bool, rule: seq<string>)
    ensures off == OffLine(line)
    ensures !off ==> rule == Texts(SaveTokens(line))
  {
    var x := Trim(line);
    SaveTexts(line);
    if x == "" {
      BlankLineSavesNothing(line);
      return false, [];
    }
    if OffWord(Lower(x)) {
      return true, [];
    }
    var f := Fields(x);
    if |f| < 2 {
      return false, [];
    }
    return false, ["--save", f[0], f[1]];
  }

  method RdbArgv(lines: seq<string>) returns (out: seq<string>)
    ensures out == Texts(RdbTokens(lines))
  {
    hide Texts, SaveTokens, OffLine, OffAlone;
    PrintEmpty();
    var none := ["--save", ""];
    SaveTexts("");
    if |lines| == 0 {
      return [];
    }
    if |lines| == 1 && OffAlone(lines[0]) {
      return none;
    }
    out := [];
    for i := 0 to |lines|
      invariant out == Texts(SaveRules(lines[..i]))
      invariant NoneOff(lines[..i])
    {
      SaveStep(lines, i);
      TextsAppend(SaveRules(lines[..i]), SaveTokens(lines[i]));
      assert lines[..i + 1] == lines[..i] + [lines[i]];
      var off, rule := RdbLineArgv(lines[i]);
      if off {
        return none;
      }
      out := out + rule;
    }
    assert lines[..|lines|] == lines;
  }

  method RdbLineShell(line: string) returns (off: bool, rule: string)
    ensures off == OffLine(line)
    ensures !off ==> rule == Print(SaveTokens(line))
  {
    var x := Trim(line);
    if x == "" {
      BlankLineSavesNothing(line);
      return false, "";
    }
    if OffWord(Lower(x)) {
      return true, "";
    }
    var f := Fields(x);
    if |f| < 2 {
      return false, "";
    }
    SaveTokensPrint(line);
    return false, " --save " + ShellQuoteForSh(f[0]) + " " + ShellQuoteForSh(f[1]);
  }

  method RdbShellFragment(lines: seq<string>) returns (out: string)
    ensures out == Print(RdbTokens(lines))
  {
    hide Print, SaveTokens, OffLine, OffAlone;
    PrintEmpty();
    var none := " --save ''";
    SaveOffPrints();
    if |lines| == 0 {
      return "";
    }
    if |lines| == 1 && OffAlone(lines[0]) {
      return none;
    }
    out := "";
    for i := 0 to |lines|
      invariant out == Print(SaveRules(lines[..i]))
      invariant NoneOff(lines[..i])
    {
      SaveStep(lines, i);
      PrintAppend(SaveRules(lines[..i]), SaveTokens(lines[i]));
      assert lines[..i + 1] == lines[..i] + [lines[i]];
      var off, rule := RdbLineShell(lines[i]);
      if off {
        return none;
      }
      out := out + rule;
    }
    assert lines[..|lines|] == lines;
  }

  // ---------------------------------------------------------------- extra arguments

  /** The shell form keeps each element as one quoted word. */
  function ExtraTokens(args: seq<string>): seq<Token> {
    if args == [] then [] else
      var rest := ExtraTokens(args[..|args| - 1]);
      var a := Trim(args[|args| - 1]);
      if a == "" then rest else rest + [Quoted(a)]
  }

  /** The argv form splits each element into its fields. */
  function ExtraFields(args: seq<string>): seq<string> {
    if args == [] then [] else
      var rest := ExtraFields(args[..|args| - 1]);
      var a := Trim(args[|args| - 1]);
      if a == "" then rest else rest + Fields(a)
  }

  method ExtraArgsShellFragment(args: seq<string>) returns (out: string)
    ensures out == Print(ExtraTokens(args))
  {
    out := "";
    for i := 0 to |args|
      invariant out == Print(ExtraTokens(args[..i]))
    {
      assert args[..i + 1][..i] == args[..i];
      var a := Trim(args[i]);
      if a == "" {
        continue;
      }
      PrintSnoc(ExtraTokens(args[..i]), Quoted(a));
      out := out + (" " + ShellQuoteForSh(a));
    }
    assert args[..|args|] == args;
  }

  method ExtraArgsArgv(args: seq<string>) returns (out: seq<string>)
    ensures out == ExtraFields(args)
  {
    out := [];
    for i := 0 to |args|
      invariant out == ExtraFields(args[..i])
    {
      assert args[..i + 1][..i] == args[..i];
      var a := Trim(args[i]);
      if a == "" {
        continue;
      }
      out := out + Fields(a);
    }
    assert args[..|args|] == args;
  }

  lemma PrintSnoc(ts: seq<Token>, t: Token)
    ensures Print(ts + [t]) == Print(ts) + Piece(t)
  {
    assert (ts + [t])[..|ts|] == ts;
  }

  /** No element has white space inside it once trimmed. */
  predicate SingleWords(args: seq<string>) {
    forall a :: a in args ==> NoSpace(Trim(a))
  }

  lemma {:induction false} ExtrasAgree(args: seq<string>)
    ensures |ExtraFields(args)| >= |ExtraTokens(args)|
    ensures |ExtraFields(args)| == |ExtraTokens(args)| <==> SingleWords(args)
    ensures SingleWords(args) ==> ExtraFields(args) == Texts(ExtraTokens(args))
  {
    if args != [] {
      var init, a := args[..|args| - 1], args[|args| - 1];
      ExtrasAgree(init);
      assert args == init + [a];
      assert SingleWords(args) <==> SingleWords(init) && NoSpace(Trim(a));
      if Trim(a) != "" {
        TrimIsTrimmed(a);
        FieldsCount(Trim(a));
        TextsAppend(ExtraTokens(init), [Quoted(Trim(a))]);
      }
    }
  }

  // ---------------------------------------------------------------- the container

  datatype Container = Container(command: seq<string>, args: seq<string>, env: Env)

  function HeadTokens(dataDir: string): seq<Token> {
    [Raw("redis-server")] + (if Trim(dataDir) != "" then [Raw("--dir"), Quoted(Trim(dataDir))] else [])
  }

  function BaseTokens(o: Opts, dataDir: string): seq<Token> {
    HeadTokens(dataDir)
    + [Raw("--maxmemory"), Quoted(Memory(o)), Raw("--maxmemory-policy"), Quoted(Policy(o)),
       Raw("--appendonly"), Quoted(YesNo(o.appendonly))]
  }

  /** The argument vector of the form without a password. */
  function PlainArgv(o: Opts, dataDir: string): seq<string> {
    Texts(BaseTokens(o, dataDir)) + Texts(RdbTokens(o.rdbSaveLines)) + EnterpriseArgsArgv(o)
    + ExtraFields(o.extraRedisServerArgs)
  }

  function DirArg(dataDir: string): string {
    if Trim(dataDir) != "" then "--dir " + ShellQuoteForSh(Trim(dataDir)) + " " else ""
  }

  /** The single argument of "sh -c" in the form with a password. */
  function PasswordCommand(o: Opts, dataDir: string, extra: string): string {
    "exec redis-server " + DirArg(dataDir) + "--maxmemory " + ShellQuoteForSh(Memory(o))
    + " --maxmemory-policy " + ShellQuoteForSh(Policy(o)) + " --appendonly " + ShellQuoteForSh(YesNo(o.appendonly))
    + extra + " --requirepass \"$REDIS_PASSWORD\""
  }

  function ExtraShell(o: Opts): string {
    Print(RdbTokens(o.rdbSaveLines)) + EnterpriseArgsShell(o) + Print(ExtraTokens(o.extraRedisServerArgs))
  }

  /** The value the pod sees: the Secret holds the trimmed password. */
  function PasswordEnv(o: Opts): Env {
    map["REDIS_PASSWORD" := Trim(o.password)]
  }

  method BaseArgv(o: Opts, dataDir: string) returns (args: seq<string>)
    ensures args == Texts(BaseTokens(o, dataDir))
  {
    hide Trim, Memory, Policy, YesNo, Texts;
    args := ["redis-server"];
    if Trim(dataDir) != "" {
      args := args + ["--dir", Trim(dataDir)];
    }
    args := args + ["--maxmemory", Memory(o), "--maxmemory-policy", Policy(o), "--appendonly", YesNo(o.appendonly)];
    TextsAt(BaseTokens(o, dataDir), args);
  }

  /** With a password the shell runs the words of the command and sets that password; without one the
      argument vector is run as it is, and none of its fixed words asks for a password. */
  method BuildMainContainer(o: Opts, dataDir: string) returns (c: Container)
    ensures Trim(o.password) != "" ==>
              && c.command == ["/bin/sh", "-c"] && |c.args| == 1
              && var r := ShellWords(c.args[0], c.env);
              && r == Words(["exec"] + Texts(BaseTokens(o, dataDir)) + Texts(RdbTokens(o.rdbSaveLines)) + EnterpriseArgsArgv(o)
                            + Texts(ExtraTokens(o.extraRedisServerArgs)) + ["--requirepass", Trim(o.password)])
              && r.words[|r.words| - 2..] == ["--requirepass", Trim(o.password)]
    ensures Trim(o.password) == "" ==>
              && c.command == [] && c.env == map[] && c.args == PlainArgv(o, dataDir)
              && ("--requirepass" in c.args ==> GivenWord(o, dataDir, "--requirepass"))
  {
    hide Trim, ShellWords, PasswordCommand, ExtraShell, Print, Texts, BaseTokens, RdbTokens, EnterpriseArgsArgv,
         EnterpriseArgsShell, ExtraTokens, ExtraFields, PasswordEnv;
    var rdb := RdbShellFragment(o.rdbSaveLines);
    var extra := ExtraArgsShellFragment(o.extraRedisServerArgs);
    var extraShell := rdb + EnterpriseArgsShell(o) + extra;
    if Trim(o.password) != "" {
      ExtraShellIs(o);
      c := Container(["/bin/sh", "-c"], [PasswordCommand(o, dataDir, extraShell)], PasswordEnv(o));
      PasswordCommandWords(o, dataDir);
    } else {
      NoFixedPassword(o, dataDir);
      var args := BaseArgv(o, dataDir);
      var rdbArgv := RdbArgv(o.rdbSaveLines);
      var extraArgv := ExtraArgsArgv(o.extraRedisServerArgs);
      args := args + rdbArgv + EnterpriseArgsArgv(o) + extraArgv;
      c := Container([], args, map[]);
    }
  }

  // ---------------------------------------------------------------- the two forms agree

  function RawAll(ws: seq<string>): (r: seq<Token>)
    ensures |r| == |ws|
  {
    seq(|ws|, i requires 0 <= i < |ws| => Raw(ws[i]))
  }

  lemma DigitsPlain(n: nat)
    ensures Plain(Digits(n))
  {
  }

  lemma PrintFlag(ts: seq<Token>, name: string, value: string)
    ensures Print(ts + [Raw(name), Raw(value)]) == Print(ts) + ShellFlag(name, value)
  {
    hide Print, ShellQuoteForSh;
    PrintSnoc(ts, Raw(name));
    PrintSnoc(ts + [Raw(name)], Raw(value));
    assert ts + [Raw(name)] + [Raw(value)] == ts + [Raw(name), Raw(value)];
    assert Print(ts) + (" " + name) + (" " + value) == Print(ts) + (" " + name + " " + value);
  }

  lemma SevenFlagsPrint(t: seq<Token>)
    requires |t| >= 14 && forall i :: 0 <= i < 14 ==> t[i].Raw?
    ensures Print(t[..14])
            == ShellFlag(t[0].text, t[1].text) + ShellFlag(t[2].text, t[3].text) + ShellFlag(t[4].text, t[5].text)
             + ShellFlag(t[6].text, t[7].text) + ShellFlag(t[8].text, t[9].text) + ShellFlag(t[10].text, t[11].text)
             + ShellFlag(t[12].text, t[13].text)
  {
    hide Print, ShellFlag;
    PrintEmpty();
    assert t[..0] == [];
    FlagsPrint(t, 0); FlagsPrint(t, 2); FlagsPrint(t, 4); FlagsPrint(t, 6);
    FlagsPrint(t, 8); FlagsPrint(t, 10); FlagsPrint(t, 12);
    var first := ShellFlag(t[0].text, t[1].text);
    assert "" + first == first;
  }

  lemma TuningPrints(o: Opts)
    ensures Print(RawAll(EnterpriseArgsArgv(o))) == EnterpriseArgsShell(o)
  {
    hide Print, ShellFlag, Digits, Positive, YesNo;
    var a := EnterpriseArgsArgv(o);
    var t := RawAll(a);
    SevenFlagsPrint(t);
    var seven := Print(t[..14]);
    if o.ioThreads > 0 {
      FlagsPrint(t, 14); FlagsPrint(t, 16);
      assert t[..18] == t;
      var eight, nine := ShellFlag(a[14], a[15]), ShellFlag(a[16], a[17]);
      assert (seven + eight) + nine == seven + (eight + nine);
    } else {
      assert t[..14] == t;
      assert seven + "" == seven;
    }
  }

  lemma PrintEmpty()
    ensures Print([]) == "" && Texts([]) == []
  {
  }

  lemma FlagsPrint(t: seq<Token>, i: nat)
    requires i + 2 <= |t| && t[i].Raw? && t[i + 1].Raw?
    ensures Print(t[..i + 2]) == Print(t[..i]) + ShellFlag(t[i].text, t[i + 1].text)
  {
    assert t[..i + 2] == t[..i] + [t[i], t[i + 1]];
    assert t[i] == Raw(t[i].text) && t[i + 1] == Raw(t[i + 1].text);
    PrintFlag(t[..i], t[i].text, t[i + 1].text);
  }

  /** All words of the command between "exec" and the password. */
  function CommandTokens(o: Opts, dataDir: string): seq<Token> {
    BaseTokens(o, dataDir) + RdbTokens(o.rdbSaveLines) + RawAll(EnterpriseArgsArgv(o))
    + ExtraTokens(o.extraRedisServerArgs) + [Raw("--requirepass")]
  }

  lemma HeadPrints(dataDir: string)
    ensures "exec" + Print(HeadTokens(dataDir)) + " " == "exec redis-server " + DirArg(dataDir)
  {
    hide Print, ShellQuoteForSh, Trim;
    PrintEmpty();
    PrintSnoc([], Raw("redis-server"));
    assert [] + [Raw("redis-server")] == [Raw("redis-server")];
    var start := Print([Raw("redis-server")]);
    assert "exec" + start == "exec redis-server";
    if Trim(dataDir) == "" {
      assert HeadTokens(dataDir) == [Raw("redis-server")];
    } else {
      PairPrints([Raw("redis-server")], "--dir", Trim(dataDir));
      var q := ShellQuoteForSh(Trim(dataDir));
      DirText(start, q);
    }
  }

  lemma DirText(start: string, q: string)
    requires "exec" + start == "exec redis-server"
    ensures "exec" + (start + (" " + "--dir" + " " + q)) + " " == "exec redis-server " + ("--dir " + q + " ")
  {
    assert "exec" + (start + (" " + "--dir" + " " + q)) + " " == ("exec" + start) + " " + ("--dir " + q + " ");
  }

  lemma BasePrints(o: Opts, dataDir: string)
    ensures "exec" + Print(BaseTokens(o, dataDir))
         == "exec redis-server " + DirArg(dataDir) + "--maxmemory " + ShellQuoteForSh(Memory(o))
            + " --maxmemory-policy " + ShellQuoteForSh(Policy(o)) + " --appendonly " + ShellQuoteForSh(YesNo(o.appendonly))
  {
    hide Print, ShellQuoteForSh, Memory, Policy, YesNo, DirArg;
    HeadPrints(dataDir);
    var b0 := HeadTokens(dataDir);
    var m, p, a := Memory(o), Policy(o), YesNo(o.appendonly);
    PairPrints(b0, "--maxmemory", m);
    var b1 := b0 + [Raw("--maxmemory"), Quoted(m)];
    PairPrints(b1, "--maxmemory-policy", p);
    var b2 := b1 + [Raw("--maxmemory-policy"), Quoted(p)];
    PairPrints(b2, "--appendonly", a);
    assert b2 + [Raw("--appendonly"), Quoted(a)] == BaseTokens(o, dataDir);
    Append4("exec", Print(b0), " --maxmemory ", ShellQuoteForSh(m), " --maxmemory-policy ", ShellQuoteForSh(p),
            " --appendonly ", ShellQuoteForSh(a));
    assert " " + "--maxmemory" + " " == " --maxmemory ";
    assert " " + "--maxmemory-policy" + " " == " --maxmemory-policy ";
    assert " " + "--appendonly" + " " == " --appendonly ";
    assert ("exec" + Print(b0)) + " --maxmemory " == ("exec" + Print(b0) + " ") + "--maxmemory ";
  }

  lemma Append4(e: string, z: string, a: string, qa: string, b: string, qb: string, c: string, qc: string)
    ensures e + (z + (a + qa) + (b + qb) + (c + qc)) == e + z + a + qa + b + qb + c + qc
  {
  }

  lemma PairPrints(ts: seq<Token>, name: string, value: string)
    ensures Print(ts + [Raw(name), Quoted(value)]) == Print(ts) + (" " + name + " " + ShellQuoteForSh(value))
  {
    hide Print, EscapeQuotes, ShellQuoteForSh;
    PrintSnoc(ts, Raw(name));
    PrintSnoc(ts + [Raw(name)], Quoted(value));
    assert ts + [Raw(name)] + [Quoted(value)] == ts + [Raw(name), Quoted(value)];
    assert Print(ts) + (" " + name) + (" " + ShellQuoteForSh(value)) == Print(ts) + (" " + name + " " + ShellQuoteForSh(value));
  }

  const PASSWORD_WORD: string := " \"$REDIS_PASSWORD\""

  lemma CommandTokensPrint(o: Opts, dataDir: string)
    ensures Print(CommandTokens(o, dataDir))
         == Print(BaseTokens(o, dataDir)) + Print(RdbTokens(o.rdbSaveLines)) + EnterpriseArgsShell(o)
            + Print(ExtraTokens(o.extraRedisServerArgs)) + " --requirepass"
  {
    TuningPrints(o);
    hide Print, BaseTokens, RdbTokens, EnterpriseArgsArgv, EnterpriseArgsShell, ExtraTokens, RawAll, ShellQuoteForSh;
    var b, r := BaseTokens(o, dataDir), RdbTokens(o.rdbSaveLines);
    var e, x := RawAll(EnterpriseArgsArgv(o)), ExtraTokens(o.extraRedisServerArgs);
    PrintAppend(b, r);
    PrintAppend(b + r, e);
    PrintAppend(b + r + e, x);
    PrintSnoc(b + r + e + x, Raw("--requirepass"));
    assert Piece(Raw("--requirepass")) == " --requirepass";
  }

  lemma CommandPrints(o: Opts, dataDir: string)
    ensures PasswordCommand(o, dataDir, ExtraShell(o)) == "exec" + Print(CommandTokens(o, dataDir)) + PASSWORD_WORD
  {
    CommandTokensPrint(o, dataDir);
    BasePrints(o, dataDir);
    hide Print, BaseTokens, RdbTokens, CommandTokens, EnterpriseArgsShell, ExtraTokens, ShellQuoteForSh, Memory, Policy, YesNo,
         DirArg;
    var b, r := Print(BaseTokens(o, dataDir)), Print(RdbTokens(o.rdbSaveLines));
    var e, x := EnterpriseArgsShell(o), Print(ExtraTokens(o.extraRedisServerArgs));
    Regroup("exec", b, r, e, x, " --requirepass", PASSWORD_WORD);
    assert " --requirepass" + PASSWORD_WORD == " --requirepass \"$REDIS_PASSWORD\"";
  }

  lemma Regroup(a: string, b: string, c: string, d: string, e: string, f: string, g: string)
    ensures a + (b + c + d + e + f) + g == (a + b) + (c + d + e) + (f + g)
  {
  }

  predicate NameLetters(s: string) {
    forall i :: 0 <= i < |s| ==> NameChar(s[i]) && !('0' <= s[i] <= '9')
  }

  lemma {:induction false} RunName(s: string, l: Lexer, env: Env)
    requires l.Lexer? && l.mode.Param? && NameLetters(s)
    ensures Run(s, l, env) == l.(mode := Param(l.mode.name + s))
  {
    if s == "" {
      assert l.mode.name + s == l.mode.name;
    } else {
      forall i | 0 <= i < |s| - 1 ensures s[1..][i] == s[i + 1] { }
      RunName(s[1..], l.(mode := Param(l.mode.name + [s[0]])), env);
      assert l.mode.name + [s[0]] + s[1..] == l.mode.name + s;
    }
  }

  lemma RunDollar(ws: seq<string>, env: Env)
    requires ws != []
    ensures Run(" \"$", After(ws), env) == Lexer(Param(""), ws, true, "")
  {
    hide Special, NameChar;
    assert ws[..|ws| - 1] + [ws[|ws| - 1]] == ws;
    var l0 := Lexer(Bare, ws, false, "");
    assert Step(After(ws), ' ', env) == l0;
    var l1 := Lexer(Double, ws, true, "");
    assert Step(l0, '"', env) == l1;
    var l2 := Lexer(Param(""), ws, true, "");
    assert Step(l1, '$', env) == l2;
    assert Run("$", l1, env) == l2 by { assert "$"[1..] == ""; }
    assert Run("\"$", l0, env) == Run("$", l1, env) by { assert "\"$"[1..] == "$"; }
    assert " \"$"[1..] == "\"$";
  }

  lemma RunCloseParam(name: string, ws: seq<string>, env: Env)
    requires name != ""
    ensures Run("\"", Lexer(Param(name), ws, true, ""), env) == After(ws + [Expand(name, env)])
  {
    var pw := Expand(name, env);
    assert "" + pw == pw;
    assert Step(Lexer(Param(name), ws, true, ""), '"', env) == Lexer(Bare, ws, true, pw);
    assert "\""[1..] == "";
    assert (ws + [pw])[..|ws|] == ws;
  }

  lemma RunParamWord(name: string, ws: seq<string>, env: Env)
    requires ws != [] && name != "" && NameLetters(name)
    ensures Run(" \"$" + name + "\"", After(ws), env) == After(ws + [Expand(name, env)])
  {
    var l := Lexer(Param(""), ws, true, "");
    RunDollar(ws, env);
    RunName(name, l, env);
    RunCloseParam(name, ws, env);
    hide Run, Step, Expand, After;
    RunAppend(" \"$" + name, "\"", After(ws), env);
    RunAppend(" \"$", name, After(ws), env);
    assert "" + name == name;
  }

  /** The double-quoted parameter is one word: the value, unsplit. */
  lemma RunPasswordWord(ws: seq<string>, env: Env)
    requires ws != []
    ensures Run(PASSWORD_WORD, After(ws), env) == After(ws + [Expand("REDIS_PASSWORD", env)])
  {
    hide Run, Step, Expand, After;
    RunParamWord("REDIS_PASSWORD", ws, env);
    assert PASSWORD_WORD == " \"$" + "REDIS_PASSWORD" + "\"";
  }

  lemma PrintableAppend(a: seq<Token>, b: seq<Token>)
    ensures Printable(a + b) <==> Printable(a) && Printable(b)
  {
    hide Plain;
    if Printable(a + b) {
      assert forall i :: 0 <= i < |a| ==> (a + b)[i] == a[i];
      assert forall i :: 0 <= i < |b| ==> (a + b)[|a| + i] == b[i];
    }
  }

  lemma FixedWordsPlain()
    ensures Plain("redis-server") && Plain("--dir") && Plain("--maxmemory") && Plain("--maxmemory-policy")
    ensures Plain("--appendonly") && Plain("--save") && Plain("--requirepass")
  {
  }

  lemma TuningPlain(o: Opts)
    ensures var a := EnterpriseArgsArgv(o); forall i :: 0 <= i < |a| ==> Plain(a[i])
  {
    FixedTuningPlain();
    hide Plain, Digits;
    forall n: nat ensures Plain(Digits(n)) { DigitsPlain(n); }
  }

  lemma FixedTuningPlain()
    ensures Plain("--tcp-backlog") && Plain("--tcp-keepalive") && Plain("--timeout") && Plain("--maxclients") && Plain("--hz")
    ensures Plain("--lazyfree-lazy-eviction") && Plain("--lazyfree-lazy-expire") && Plain("yes") && Plain("no")
    ensures Plain("--io-threads") && Plain("--io-threads-do-reads")
  {
    FixedNumbersPlain();
    FixedSwitchesPlain();
    hide Plain;
  }

  lemma FixedNumbersPlain()
    ensures Plain("--tcp-backlog") && Plain("--tcp-keepalive") && Plain("--timeout") && Plain("--maxclients") && Plain("--hz")
  {
  }

  lemma FixedSwitchesPlain()
    ensures Plain("--lazyfree-lazy-eviction") && Plain("--lazyfree-lazy-expire") && Plain("yes") && Plain("no")
    ensures Plain("--io-threads") && Plain("--io-threads-do-reads")
  {
  }

  lemma {:induction false} SaveRulesPrintable(lines: seq<string>)
    ensures Printable(SaveRules(lines))
  {
    if lines != [] {
      var init, last := lines[..|lines| - 1], lines[|lines| - 1];
      SaveRulesPrintable(init);
      FixedWordsPlain();
      hide Plain, Fields, Trim;
      assert Printable(SaveTokens(last));
      PrintableAppend(SaveRules(init), SaveTokens(last));
    }
  }

  lemma {:induction false} ExtraPrintable(args: seq<string>)
    ensures Printable(ExtraTokens(args))
  {
    hide Plain, Trim;
    if args != [] {
      ExtraPrintable(args[..|args| - 1]);
    }
  }

  lemma BasePrintable(o: Opts, dataDir: string)
    ensures Printable(BaseTokens(o, dataDir))
  {
    FixedWordsPlain();
    hide Plain, Trim, Memory, Policy, YesNo;
  }

  lemma CommandPrintable(o: Opts, dataDir: string)
    ensures Printable(CommandTokens(o, dataDir))
  {
    var b, r := BaseTokens(o, dataDir), RdbTokens(o.rdbSaveLines);
    var e, x := RawAll(EnterpriseArgsArgv(o)), ExtraTokens(o.extraRedisServerArgs);
    SaveRulesPrintable(o.rdbSaveLines);
    ExtraPrintable(o.extraRedisServerArgs);
    BasePrintable(o, dataDir);
    TuningPlain(o);
    FixedWordsPlain();
    hide Plain, BaseTokens, EnterpriseArgsArgv, ExtraTokens, SaveRules, RdbOff;
    PrintableAppend(b, r);
    PrintableAppend(b + r, e);
    PrintableAppend(b + r + e, x);
    PrintableAppend(b + r + e + x, [Raw("--requirepass")]);
  }

  lemma RunExec(env: Env)
    ensures Run("exec", Lexer(Bare, [], false, ""), env) == After(["exec"])
  {
    var start := Lexer(Bare, [], false, "");
    RunPlain("exec", start, env);
    hide Run, Step;
    assert "" + "exec" == "exec" && ["exec"][..0] == [];
  }

  /** For all options, lexing the password form yields "exec", the words of the command as the
      options give them, and the password as a single word. */
  lemma PasswordFormWords(o: Opts, dataDir: string)
    ensures ShellWords(PasswordCommand(o, dataDir, ExtraShell(o)), PasswordEnv(o))
         == Words(["exec"] + Texts(CommandTokens(o, dataDir)) + [Trim(o.password)])
  {
    hide Run, Print, Texts, CommandTokens, PasswordCommand, ExtraShell, Printable, Trim;
    var env := PasswordEnv(o);
    var start := Lexer(Bare, [], false, "");
    var ts := CommandTokens(o, dataDir);
    CommandPrints(o, dataDir);
    RunAppend("exec" + Print(ts), PASSWORD_WORD, start, env);
    RunAppend("exec", Print(ts), start, env);
    RunExec(env);
    CommandPrintable(o, dataDir);
    RunPrinted(ts, ["exec"], env);
    RunPasswordWord(["exec"] + Texts(ts), env);
    var ws := ["exec"] + Texts(ts) + [Trim(o.password)];
    assert ws[..|ws| - 1] + [ws[|ws| - 1]] == ws;
  }

  lemma CommandTexts(o: Opts, dataDir: string)
    ensures Texts(CommandTokens(o, dataDir))
         == Texts(BaseTokens(o, dataDir)) + Texts(RdbTokens(o.rdbSaveLines)) + EnterpriseArgsArgv(o)
            + Texts(ExtraTokens(o.extraRedisServerArgs)) + ["--requirepass"]
  {
    hide Texts, BaseTokens, RdbTokens, EnterpriseArgsArgv, ExtraTokens;
    var b, r := BaseTokens(o, dataDir), RdbTokens(o.rdbSaveLines);
    var e, x := RawAll(EnterpriseArgsArgv(o)), ExtraTokens(o.extraRedisServerArgs);
    TextsAppend(b, r);
    TextsAppend(b + r, e);
    TextsAppend(b + r + e, x);
    TextsAppend(b + r + e + x, [Raw("--requirepass")]);
    TextsAt(e, EnterpriseArgsArgv(o));
    TextsAt([Raw("--requirepass")], ["--requirepass"]);
  }

  lemma ExtraShellIs(o: Opts)
    ensures ExtraShell(o)
            == Print(RdbTokens(o.rdbSaveLines)) + EnterpriseArgsShell(o) + Print(ExtraTokens(o.extraRedisServerArgs))
  {
  }

  lemma PasswordCommandWords(o: Opts, dataDir: string)
    ensures ShellWords(PasswordCommand(o, dataDir, ExtraShell(o)), PasswordEnv(o))
            == Words(["exec"] + Texts(BaseTokens(o, dataDir)) + Texts(RdbTokens(o.rdbSaveLines)) + EnterpriseArgsArgv(o)
                     + Texts(ExtraTokens(o.extraRedisServerArgs)) + ["--requirepass", Trim(o.password)])
  {
    hide ShellWords, PasswordCommand, ExtraShell, Texts, BaseTokens, RdbTokens, EnterpriseArgsArgv, ExtraTokens, Trim, PasswordEnv,
         CommandTokens;
    PasswordFormWords(o, dataDir);
    CommandTexts(o, dataDir);
    var b, r, e, x := Texts(BaseTokens(o, dataDir)), Texts(RdbTokens(o.rdbSaveLines)), EnterpriseArgsArgv(o),
                      Texts(ExtraTokens(o.extraRedisServerArgs));
    assert ["exec"] + (b + r + e + x + ["--requirepass"]) + [Trim(o.password)]
        == ["exec"] + b + r + e + x + ["--requirepass", Trim(o.password)];
  }

  /** A word of the command line that an option supplies. */
  predicate GivenWord(o: Opts, dataDir: string, w: string) {
    || w == Trim(dataDir) || w == Trim(o.maxmemory)
    || (exists line :: line in o.rdbSaveLines && w in Fields(Trim(line)))
    || (exists a :: a in o.extraRedisServerArgs && w in Fields(Trim(a)))
  }

  lemma {:induction false} ExtraWord(args: seq<string>, w: string)
    ensures w in ExtraFields(args) <==> exists a :: a in args && w in Fields(Trim(a))
  {
    hide Fields, Trim;
    if args != [] {
      var init, last := args[..|args| - 1], args[|args| - 1];
      ExtraWord(init, w);
      FieldsOfBlank();
      assert args == init + [last];
      assert w in ExtraFields(args) <==> w in ExtraFields(init) || w in Fields(Trim(last));
    }
  }

  lemma FieldsOfBlank()
    ensures Fields("") == []
  {
  }

  lemma {:induction false} SaveWord(lines: seq<string>, w: string)
    ensures w in Texts(SaveRules(lines)) ==> w == "--save" || exists line :: line in lines && w in Fields(Trim(line))
  {
    hide Fields, Trim, Texts;
    PrintEmpty();
    if lines != [] {
      var init, last := lines[..|lines| - 1], lines[|lines| - 1];
      SaveWord(init, w);
      SaveTexts(last);
      TextsAppend(SaveRules(init), SaveTokens(last));
      hide SaveTokens;
      assert lines == init + [last];
      if w in Texts(SaveTokens(last)) {
        assert w == "--save" || w in Fields(Trim(last));
      }
    }
  }

  /** None of the words the argv form itself puts on the command line is --requirepass. */
  lemma NoFixedPassword(o: Opts, dataDir: string)
    ensures "--requirepass" in PlainArgv(o, dataDir) ==> GivenWord(o, dataDir, "--requirepass")
  {
    var w := "--requirepass";
    ExtraWord(o.extraRedisServerArgs, w);
    SaveWord(o.rdbSaveLines, w);
    SaveTexts("");
    BaseWord(o, dataDir);
    TuningWord(o);
    hide Texts, BaseTokens, EnterpriseArgsArgv, ExtraFields, SaveRules, Fields, Trim, RdbOff;
    assert w[2] != "--save"[2];
  }

  lemma TuningWord(o: Opts)
    ensures "--requirepass" !in EnterpriseArgsArgv(o)
  {
    hide Digits, Positive;
    forall n: nat ensures "--requirepass" != Digits(n) {
      assert Digits(n)[0] != '-';
    }
  }

  lemma BaseWord(o: Opts, dataDir: string)
    ensures "--requirepass" in Texts(BaseTokens(o, dataDir)) ==>
              "--requirepass" == Trim(dataDir) || "--requirepass" == Trim(o.maxmemory)
  {
    BaseTexts(o, dataDir);
    PolicyIsKnown(o);
    hide Trim, Texts, Policy;
  }

  lemma PolicyIsKnown(o: Opts)
    ensures Policy(o)[0] != '-' && Policy(o) != ""
  {
    hide Lower;
  }

  /** The words before the RDB rules. */
  lemma BaseTexts(o: Opts, dataDir: string)
    ensures Texts(BaseTokens(o, dataDir))
            == (if Trim(dataDir) != "" then ["redis-server", "--dir", Trim(dataDir)] else ["redis-server"])
             + ["--maxmemory", if Trim(o.maxmemory) == "" then "256mb" else Trim(o.maxmemory),
                "--maxmemory-policy", Policy(o), "--appendonly", if o.appendonly then "yes" else "no"]
  {
    hide Trim, Texts, Policy;
    var ws := (if Trim(dataDir) != "" then ["redis-server", "--dir", Trim(dataDir)] else ["redis-server"])
            + ["--maxmemory", if Trim(o.maxmemory) == "" then "256mb" else Trim(o.maxmemory),
               "--maxmemory-policy", Policy(o), "--appendonly", if o.appendonly then "yes" else "no"];
    TextsAt(BaseTokens(o, dataDir), ws);
  }

  /** The two back ends run the same command line, for all options, exactly when no extra
      argument has white space inside it: the shell form keeps such an argument as one word and
      the argv form splits it. */
  lemma FormsAgree(o: Opts, dataDir: string)
    ensures ShellWords(PasswordCommand(o, dataDir, ExtraShell(o)), PasswordEnv(o))
         == Words(["exec"] + PlainArgv(o, dataDir) + ["--requirepass", Trim(o.password)])
       <==> SingleWords(o.extraRedisServerArgs)
  {
    PasswordFormWords(o, dataDir);
    CommandTexts(o, dataDir);
    ExtrasAgree(o.extraRedisServerArgs);
    hide Texts, BaseTokens, RdbTokens, EnterpriseArgsArgv, ExtraTokens, ExtraFields, SingleWords, ShellWords, PasswordCommand,
         ExtraShell, CommandTokens, Trim;
    var front := Texts(BaseTokens(o, dataDir)) + Texts(RdbTokens(o.rdbSaveLines)) + EnterpriseArgsArgv(o);
    var x, f := Texts(ExtraTokens(o.extraRedisServerArgs)), ExtraFields(o.extraRedisServerArgs);
    var pw := Trim(o.password);
    var left := ["exec"] + (front + x + ["--requirepass"]) + [pw];
    var right := ["exec"] + (front + f) + ["--requirepass", pw];
    if SingleWords(o.extraRedisServerArgs) {
      assert left == right;
    } else {
      assert |left| < |right|;
    }
  }

  const SPACED := "--foo bar"

  lemma SpacedFields()
    ensures Trim(SPACED) == SPACED && Fields(SPACED) == ["--foo", "bar"]
  {
    SpacedWord();
    FieldsOfRest();
    hide WordLen;
    assert TrimLeft(SPACED) == SPACED;
    assert SPACED[..5] == "--foo" && SPACED[5..] == " bar";
  }

  lemma SpacedWord()
    ensures WordLen(SPACED) == 5
  {
    var n := WordLen(SPACED);
    hide WordLen;
    assert SPACED[0] == '-' && SPACED[1] == '-' && SPACED[2] == 'f' && SPACED[3] == 'o' && SPACED[4] == 'o' && SPACED[5] == ' ';
  }

  lemma FieldsOfRest()
    ensures Fields(" bar") == ["bar"]
  {
    assert " bar"[1..] == "bar";
    assert TrimLeft(" bar") == "bar";
    assert WordLen("bar") == 3 by {
      assert NoSpace("bar");
    }
    assert "bar"[..3] == "bar" && "bar"[3..] == "";
    assert Fields("") == [];
  }

  /** One argument with a space: the shell form runs with one more word, the argv form with two. */
  lemma SpacedArgumentDiffers(o: Opts, dataDir: string)
    requires o.extraRedisServerArgs == [SPACED]
    ensures Texts(ExtraTokens(o.extraRedisServerArgs)) == [SPACED]
    ensures ExtraFields(o.extraRedisServerArgs) == ["--foo", "bar"]
    ensures ShellWords(PasswordCommand(o, dataDir, ExtraShell(o)), PasswordEnv(o))
         != Words(["exec"] + PlainArgv(o, dataDir) + ["--requirepass", Trim(o.password)])
  {
    hide Texts, ExtraTokens, ExtraFields, Trim, ShellWords, PlainArgv, PasswordCommand, ExtraShell;
    SpacedWords(o.extraRedisServerArgs);
    FormsAgree(o, dataDir);
  }

  lemma SpacedWords(args: seq<string>)
    requires args == [SPACED]
    ensures Texts(ExtraTokens(args)) == [SPACED] && ExtraFields(args) == ["--foo", "bar"] && !SingleWords(args)
  {
    SpacedFields();
    hide Trim, Fields;
    assert args[..0] == [] && args[0] == SPACED;
    assert SPACED in args && IsSpace(SPACED[5]);
    assert ExtraTokens([]) == [] && ExtraFields([]) == [];
    TextsAt([Quoted(SPACED)], [SPACED]);
  }
}
