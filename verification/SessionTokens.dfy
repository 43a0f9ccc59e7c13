/** Session cookies and the two step tokens of the TOTP login: internal/auth.go, lines 134-194,
    internal/auth_totp.go, lines 44-139, internal/buildversion.go. */
module SessionTokens {
  import opened Text
  import opened Options

  /** A Go string or byte slice; the character of code b stands for the byte b. */
  type Bytes = s: string | IsBytes(s)

  predicate IsBytes(s: string) {
    forall i :: 0 <= i < |s| ==> s[i] < '\U{100}'
  }

  // ---------------------------------------------------------------- base64url without padding

  /** The URL-safe alphabet of section 5 of RFC 4648. */
  function Letter(i: nat): (c: char)
    requires i < 64
  {
    if i < 26 then ('A' as int + i) as char
    else if i < 52 then ('a' as int + i - 26) as char
    else if i < 62 then ('0' as int + i - 52) as char
    else if i == 62 then '-' else '_'
  }

  predicate IsLetter(c: char) {
    'A' <= c <= 'Z' || 'a' <= c <= 'z' || '0' <= c <= '9' || c == '-' || c == '_'
  }

  function Index(c: char): (i: nat)
    requires IsLetter(c)
    ensures i < 64 && Letter(i) == c
  {
    if 'A' <= c <= 'Z' then c as int - 'A' as int
    else if 'a' <= c <= 'z' then c as int - 'a' as int + 26
    else if '0' <= c <= '9' then c as int - '0' as int + 52
    else if c == '-' then 62 else 63
  }

  predicate IsEncoding(s: string) {
    forall i :: 0 <= i < |s| ==> IsLetter(s[i])
  }

  lemma LetterIndex(i: nat)
    requires i < 64
    ensures IsLetter(Letter(i)) && Index(Letter(i)) == i
  {
  }

  type Sextet = n: nat | n < 64

  function S0(x: char): Sextet requires x < '\U{100}' { x as int / 4 }
  function S1(x: char, y: char): Sextet requires x < '\U{100}' && y < '\U{100}' { x as int % 4 * 16 + y as int / 16 }
  function S2(y: char, z: char): Sextet requires y < '\U{100}' && z < '\U{100}' { y as int % 16 * 4 + z as int / 64 }
  function S3(z: char): Sextet requires z < '\U{100}' { z as int % 64 }

  function B0(i: Sextet, j: Sextet): (c: char) ensures c < '\U{100}' { (i * 4 + j / 16) as char }
  function B1(j: Sextet, k: Sextet): (c: char) ensures c < '\U{100}' { (j % 16 * 16 + k / 4) as char }
  function B2(k: Sextet, l: Sextet): (c: char) ensures c < '\U{100}' { (k % 4 * 64 + l) as char }

  const ZERO: char := '\0'

  /** The bytes cut into groups of six bits, the last group filled with zeros. */
  function Sextets(b: Bytes): seq<Sextet> {
    if b == "" then []
    else if |b| == 1 then [S0(b[0]), S1(b[0], ZERO)]
    else if |b| == 2 then [S0(b[0]), S1(b[0], b[1]), S2(b[1], ZERO)]
    else [S0(b[0]), S1(b[0], b[1]), S2(b[1], b[2]), S3(b[2])] + Sextets(b[3..])
  }

  /** The bytes of a list of sextets. As in Go's non-strict mode, the unused low bits of the last
      sextet are ignored; a single left-over sextet is an error. */
  function Octets(q: seq<Sextet>): Option<Bytes> {
    if q == [] then Some("")
    else if |q| == 1 then None
    else if |q| == 2 then Some([B0(q[0], q[1])])
    else if |q| == 3 then Some([B0(q[0], q[1]), B1(q[1], q[2])])
    else
      match Octets(q[4..])
      case None => None
      case Some(rest) => Some([B0(q[0], q[1]), B1(q[1], q[2]), B2(q[2], q[3])] + rest)
  }

  /** base64.RawURLEncoding.EncodeToString */
  function Encode(b: Bytes): string {
    var q := Sextets(b);
    seq(|q|, i requires 0 <= i < |q| => Letter(q[i]))
  }

  function Indices(s: string): seq<Sextet>
    requires IsEncoding(s)
  {
    seq(|s|, i requires 0 <= i < |s| => Index(s[i]))
  }

  function WithoutBreaks(s: string): string {
    if s == "" then "" else
      (if s[0] == '\n' || s[0] == '\r' then "" else [s[0]]) + WithoutBreaks(s[1..])
  }

  /** base64.RawURLEncoding.DecodeString: line breaks are skipped, other foreign characters and a
      single left-over letter are errors. */
  function Decode(s: string): Option<Bytes> {
    var t := WithoutBreaks(s);
    if IsEncoding(t) then Octets(Indices(t)) else None
  }

  lemma EncodeIsEncoding(b: Bytes)
    ensures IsEncoding(Encode(b))
    ensures Indices(Encode(b)) == Sextets(b)
  {
    forall i: nat | i < 64 ensures IsLetter(Letter(i)) && Index(Letter(i)) == i { LetterIndex(i); }
  }

  lemma {:induction false} NoBreaks(s: string)
    requires IsEncoding(s)
    ensures WithoutBreaks(s) == s
  {
    if s != "" {
      assert IsLetter(s[0]);
      NoBreaks(s[1..]);
    }
  }

  /** The sextets of three bytes give the bytes back. */
  lemma Regroup(x: char, y: char, z: char)
    requires x < '\U{100}' && y < '\U{100}' && z < '\U{100}'
    ensures B0(S0(x), S1(x, y)) == x && B1(S1(x, y), S2(y, z)) == y && B2(S2(y, z), S3(z)) == z
  {
  }

  lemma {:induction false} OctetsSextets(b: Bytes)
    ensures Octets(Sextets(b)) == Some(b)
    decreases |b|
  {
    var q := Sextets(b);
    if b != "" {
      Regroup(b[0], if |b| > 1 then b[1] else ZERO, if |b| > 2 then b[2] else ZERO);
      hide S0, S1, S2, S3, B0, B1, B2;
      if |b| == 1 {
        assert b == [b[0]];
      } else if |b| == 2 {
        assert b == [b[0], b[1]];
      } else {
        assert q[4..] == Sextets(b[3..]);
        OctetsSextets(b[3..]);
        assert b == [b[0], b[1], b[2]] + b[3..];
      }
    }
  }

  lemma DecodeEncode(b: Bytes)
    ensures Decode(Encode(b)) == Some(b)
  {
    EncodeIsEncoding(b);
    NoBreaks(Encode(b));
    OctetsSextets(b);
  }

  // ---------------------------------------------------------------- decimal int64

  const MAX_INT64 := 0x7fff_ffff_ffff_ffff

  type Int64 = n: int | -MAX_INT64 - 1 <= n <= MAX_INT64

  /** strconv.ParseInt(s, 10, 64) */
  function ParseInt(s: string): Option<Int64> {
    var signed := s != "" && (s[0] == '-' || s[0] == '+');
    var d := if signed then s[1..] else s;
    if d == "" || !AllDigits(d) then None
    else
      var v: int := DigitsValue(d);
      if signed && s[0] == '-' then (if v <= MAX_INT64 + 1 then Some(-v) else None)
      else if v <= MAX_INT64 then Some(v) else None
  }

  lemma ParsePrinted(n: Int64)
    ensures ParseInt(Itoa(n)) == Some(n)
    ensures Free(Itoa(n), '|') && IsBytes(Itoa(n))
  {
    var m: nat := if n < 0 then -(n as int) else n;
    DigitsRoundTrip(m);
    var d := Digits(m);
    assert '0' <= d[0] <= '9';
    if n < 0 {
      assert ("-" + d)[1..] == d;
    }
  }

  // ---------------------------------------------------------------- blank strings

  /** The length of the UTF-8 white-space character s starts with, or 0. */
  function SpaceLen(s: string): (n: nat)
    ensures n <= |s|
  {
    if s == "" then 0
    else if '\t' <= s[0] <= '\r' || s[0] == ' ' then 1
    else if |s| >= 2 && s[0] == '\U{C2}' && (s[1] == '\U{85}' || s[1] == '\U{A0}') then 2
    else if |s| >= 3
            && ( || (s[0] == '\U{E1}' && s[1] == '\U{9A}' && s[2] == '\U{80}')
                 || (s[0] == '\U{E2}' && s[1] == '\U{80}'
                     && ('\U{80}' <= s[2] <= '\U{8A}' || s[2] == '\U{A8}' || s[2] == '\U{A9}' || s[2] == '\U{AF}'))
                 || (s[0] == '\U{E2}' && s[1] == '\U{81}' && s[2] == '\U{9F}')
                 || (s[0] == '\U{E3}' && s[1] == '\U{80}' && s[2] == '\U{80}')) then 3
    else 0
  }

  /** strings.TrimSpace(s) == "" */
  predicate Blank(s: string)
    decreases |s|
  {
    s == "" || (SpaceLen(s) > 0 && Blank(s[SpaceLen(s)..]))
  }

  // ---------------------------------------------------------------- the build segment

  function Replace(s: Bytes, from: char, to: char): (r: Bytes)
    requires to < '\U{100}'
    ensures |r| == |s|
    ensures forall i :: 0 <= i < |s| ==> r[i] == if s[i] == from then to else s[i]
  {
    if s == "" then "" else [if s[0] == from then to else s[0]] + Replace(s[1..], from, to)
  }

  /** sessionBuildVersionSegment, given the trimmed build version. */
  function BuildSegment(trimmed: Bytes): (r: Bytes)
    ensures r != "" && Free(r, '|') && Free(r, '\n') && Free(r, '\r')
  {
    if trimmed == "" then "dev"
    else Replace(Replace(Replace(trimmed, '|', '_'), '\n', '_'), '\r', '_')
  }

  // ---------------------------------------------------------------- signing

  /** The HMAC, its key and the trimmed build version of the running process. */
  datatype Signer = Signer(mac: (Bytes, Bytes) -> Bytes, key: Bytes, version: Bytes) {

    function Build(): Bytes {
      BuildSegment(version)
    }

    function Sign(payload: Bytes): string {
      Encode(payload) + "." + Encode(mac(key, payload))
    }

    /** The payload of a token of two parts whose second part is the payload's HMAC. */
    function Open(token: string): Option<Bytes> {
      var parts := Split(token, '.');
      if |parts| != 2 then None
      else
        var p, sig := Decode(parts[0]), Decode(parts[1]);
        if p.None? || sig.None? || sig.value != mac(key, p.value) then None else p
    }

    lemma OpenSign(payload: Bytes)
      ensures Open(Sign(payload)) == Some(payload)
    {
      var a, b := Encode(payload), Encode(mac(key, payload));
      EncodeIsEncoding(payload);
      EncodeIsEncoding(mac(key, payload));
      assert Free(a, '.') && Free(b, '.') by {
        assert !IsLetter('.');
      }
      SplitHead(a, '.', b);
      SplitFree(b, '.');
      DecodeEncode(payload);
      DecodeEncode(mac(key, payload));
    }
  }

  lemma {:induction false} JoinIsBytes(parts: seq<Bytes>)
    ensures IsBytes(Join(parts, '|'))
  {
    if |parts| > 1 {
      JoinIsBytes(parts[1..]);
    }
  }

  /** The fields of a payload, separated by pipes. */
  function Payload(fields: seq<Bytes>): Bytes {
    JoinIsBytes(fields);
    Join(fields, '|')
  }

  function Decimal(n: Int64): Bytes {
    ParsePrinted(n);
    Itoa(n)
  }

  function EncodedBytes(b: Bytes): Bytes {
    EncodeIsEncoding(b);
    Encode(b)
  }

  // ---------------------------------------------------------------- session tokens

  const ADMIN: Bytes := "admin"
  const VIEWER: Bytes := "viewer"

  datatype TokenError =
    | InvalidToken | StaleFormat | InvalidExpiry | EmptyNonce | StaleBuild | Expired | EmptyUser

  datatype Result<+T> = Ok(value: T) | Err(error: TokenError)

  datatype Session = Session(user: string, role: string, nonce: string)

  function RoleOrAdmin(role: Bytes): Bytes {
    if Blank(role) then ADMIN else role
  }

  function KnownRole(role: string): string {
    if role == ADMIN || role == VIEWER then role else ADMIN
  }

  function SessionFields(s: Signer, user: Bytes, role: Bytes, exp: Int64, nonce: Bytes): seq<Bytes> {
    [user, RoleOrAdmin(role), Decimal(exp), nonce, s.Build()]
  }

  function MintSession(s: Signer, user: Bytes, role: Bytes, exp: Int64, nonce: Bytes): string {
    s.Sign(Payload(SessionFields(s, user, role, exp, nonce)))
  }

  function VerifySession(s: Signer, token: string, now: int): Result<Session> {
    var payload := s.Open(token);
    if payload.None? then Err(InvalidToken)
    else
      var segs := Split(payload.value, '|');
      if |segs| != 5 then Err(StaleFormat)
      else
        var exp := ParseInt(segs[2]);
        if exp.None? then Err(InvalidExpiry)
        else if Blank(segs[3]) then Err(EmptyNonce)
        else if segs[4] != s.Build() then Err(StaleBuild)
        else if now > exp.value then Err(Expired)
        else if Blank(segs[0]) then Err(EmptyUser)
        else Ok(Session(segs[0], KnownRole(segs[1]), segs[3]))
  }

  predicate PipeFree(s: string) {
    Free(s, '|')
  }

  lemma OpenedFields(s: Signer, fields: seq<Bytes>)
    requires fields != []
    ensures var r := s.Open(s.Sign(Payload(fields)));
            && r.Some?
            && |Split(r.value, '|')| >= |fields|
            && (|Split(r.value, '|')| == |fields| <==> forall i :: 0 <= i < |fields| ==> PipeFree(fields[i]))
            && (|Split(r.value, '|')| == |fields| ==> Split(r.value, '|') == fields)
  {
    s.OpenSign(Payload(fields));
    SplitJoinExact(fields, '|');
  }

  /** The fields the server adds hold no pipe, and the expiry is read back. */
  lemma OwnFields(s: Signer, exp: Int64)
    ensures PipeFree(s.Build()) && PipeFree(Decimal(exp)) && ParseInt(Decimal(exp)) == Some(exp)
  {
    ParsePrinted(exp);
  }

  /** A minted token is accepted exactly when its user and nonce are non-blank, no field holds a
      pipe and it has not expired; it then yields the minted user and nonce, and the minted role
      when that is admin or viewer and admin otherwise. */
  lemma {:induction false} SessionRoundTrip(s: Signer, user: Bytes, role: Bytes, exp: Int64, nonce: Bytes, now: int)
    ensures var r := VerifySession(s, MintSession(s, user, role, exp, nonce), now);
            && (r.Ok? <==> !Blank(user) && !Blank(nonce) && '|' !in user && '|' !in nonce && '|' !in role && now <= exp)
            && (r.Ok? ==> r.value == Session(user, if role == "viewer" then "viewer" else "admin", nonce))
            && ('|' in user || '|' in nonce || '|' in role ==> r == Err(StaleFormat))
  {
    NoPipe(user);
    NoPipe(nonce);
    RolesMean(role);
    hide Blank, Payload, Signer.Open, Signer.Sign, Signer.Build, PipeFree, Split, ParseInt, Decimal, RoleOrAdmin, KnownRole;
    var f := SessionFields(s, user, role, exp, nonce);
    OpenedFields(s, f);
    OwnFields(s, exp);
    var segs := Split(s.Open(s.Sign(Payload(f))).value, '|');
    assert f[0] == user && f[1] == RoleOrAdmin(role) && f[2] == Decimal(exp) && f[3] == nonce && f[4] == s.Build();
    if PipeFree(user) && PipeFree(nonce) && PipeFree(RoleOrAdmin(role)) {
      assert forall i :: 0 <= i < |f| ==> PipeFree(f[i]);
    }
  }

  lemma NoPipe(s: string)
    ensures PipeFree(s) <==> '|' !in s
  {
  }

  lemma RolesMean(role: Bytes)
    ensures PipeFree(RoleOrAdmin(role)) <==> '|' !in role
    ensures KnownRole(RoleOrAdmin(role)) == if role == "viewer" then "viewer" else "admin"
  {
    NoPipe(RoleOrAdmin(role));
    if Blank(role) {
      BlankBytes(role);
      assert SpaceLen("viewer") == 0;
    }
  }

  /** A blank string has no visible ASCII character, and a string of ASCII white space is blank. */
  lemma {:induction false} BlankBytes(s: string)
    ensures Blank(s) ==> forall i :: 0 <= i < |s| ==> !('!' <= s[i] <= '~')
    ensures (forall i :: 0 <= i < |s| ==> s[i] == ' ' || '\t' <= s[i] <= '\r') ==> Blank(s)
    decreases |s|
  {
    var n := SpaceLen(s);
    if n > 0 {
      BlankBytes(s[n..]);
      forall i | 0 <= i < |s| && Blank(s) ensures !('!' <= s[i] <= '~') {
        if i >= n {
          assert s[i] == s[n..][i - n];
        }
      }
    }
  }

  lemma {:induction false} SplitIsBytes(b: Bytes)
    ensures forall i :: 0 <= i < |Split(b, '|')| ==> IsBytes(Split(b, '|')[i])
    decreases |b|
  {
    var n := Find(b, '|');
    if n < |b| {
      SplitIsBytes(b[n + 1..]);
    }
  }

  function FieldsOf(payload: Bytes): seq<Bytes> {
    SplitIsBytes(payload);
    Split(payload, '|')
  }

  /** Whatever is accepted as a session is signed and names a non-blank user and nonce; and it is
      what minting that user, nonce, stored role and expiry signs, exactly if the expiry is printed
      as minting prints it and the stored role is not blank. */
  lemma AcceptedSession(s: Signer, token: string, now: int) returns (payload: Bytes)
    requires VerifySession(s, token, now).Ok?
    ensures var parts := Split(token, '.');
            |parts| == 2 && Decode(parts[0]) == Some(payload) && Decode(parts[1]) == Some(s.mac(s.key, payload))
    ensures var f := FieldsOf(payload); var x := VerifySession(s, token, now).value;
            && |f| == 5 && f[4] == BuildSegment(s.version)
            && x == Session(f[0], if f[1] == "viewer" then "viewer" else "admin", f[3]) && !Blank(x.user) && !Blank(x.nonce)
            && ParseInt(f[2]).Some? && now <= ParseInt(f[2]).value
            && (payload == Payload(SessionFields(s, f[0], f[1], ParseInt(f[2]).value, f[3]))
                <==> f[2] == Itoa(ParseInt(f[2]).value) && !Blank(f[1]))
  {
    payload := s.Open(token).value;
    OpenedIsSigned(s, token);
    hide Signer.Open, Blank, ParseInt, Split, Payload, BuildSegment, Decode;
    MintedPayload(s, payload);
  }

  /** What is opened is the first part of a token of two, and the second part is its HMAC. */
  lemma OpenedIsSigned(s: Signer, token: string)
    ensures var parts := Split(token, '.'); var found := s.Open(token);
            && (found.Some? ==> && |parts| == 2 && Decode(parts[0]) == found
                                 && Decode(parts[1]) == Some(s.mac(s.key, found.value)))
            && (found.None? ==> |parts| == 2 ==> Decode(parts[0]).Some? ==>
                  Decode(parts[1]) != Some(s.mac(s.key, Decode(parts[0]).value)))
  {
    hide Split, Decode;
  }

  /** Nobody without the key can make a token: one that is not two parts, the second of them the HMAC
      of the first, is refused by all three readers, whatever it says. */
  lemma UnsignedIsRefused(s: Signer, token: string, now: int)
    requires var parts := Split(token, '.');
             |parts| == 2 ==> Decode(parts[0]).Some? ==> Decode(parts[1]) != Some(s.mac(s.key, Decode(parts[0]).value))
    ensures VerifySession(s, token, now) == Err(InvalidToken)
    ensures ParseTotpVerifyStep(s, token, now) == Err(InvalidToken)
    ensures ParseTotpSetupStep(s, token, now) == Err(InvalidToken)
  {
    hide Split, Decode;
    OpenedIsSigned(s, token);
  }

  /** A step token that is accepted is signed as well. */
  lemma AcceptedStep(s: Signer, token: string, now: int) returns (payload: Bytes)
    requires ParseTotpVerifyStep(s, token, now).Ok? || ParseTotpSetupStep(s, token, now).Ok?
    ensures var parts := Split(token, '.');
            |parts| == 2 && Decode(parts[0]) == Some(payload) && Decode(parts[1]) == Some(s.mac(s.key, payload))
  {
    payload := s.Open(token).value;
    OpenedIsSigned(s, token);
  }

  /** A token minted by one build of the server is refused by any other. */
  lemma OtherBuildIsRefused(s: Signer, t: Signer, user: Bytes, role: Bytes, exp: Int64, nonce: Bytes, now: int)
    requires s.mac == t.mac && s.key == t.key && s.Build() != t.Build()
    ensures VerifySession(t, MintSession(s, user, role, exp, nonce), now).Err?
  {
    var f := SessionFields(s, user, role, exp, nonce);
    OpenedFields(s, f);
    hide Blank, Payload, Split, ParseInt, Decimal, RoleOrAdmin, BuildSegment, Signer.Sign, Decode, Encode;
    OpensAlike(s, t, s.Sign(Payload(f)));
    assert f[4] == s.Build();
  }

  lemma OpensAlike(s: Signer, t: Signer, token: string)
    requires s.mac == t.mac && s.key == t.key
    ensures s.Open(token) == t.Open(token)
  {
    hide Split, Decode;
  }

  /** For fields without pipes, joining and splitting are inverse. */
  lemma PayloadIs(payload: Bytes, fields: seq<Bytes>)
    requires fields != [] && forall i :: 0 <= i < |fields| ==> PipeFree(fields[i])
    ensures payload == Payload(fields) <==> FieldsOf(payload) == fields
  {
    JoinSplit(payload, '|');
    SplitJoin(fields, '|');
    hide Split, Join;
  }

  lemma FieldsArePipeFree(payload: Bytes)
    ensures forall i :: 0 <= i < |FieldsOf(payload)| ==> PipeFree(FieldsOf(payload)[i])
  {
    JoinSplit(payload, '|');
    hide Split;
  }

  lemma MintedPayload(s: Signer, payload: Bytes)
    requires |FieldsOf(payload)| == 5 && FieldsOf(payload)[4] == s.Build() && ParseInt(FieldsOf(payload)[2]).Some?
    ensures var f := FieldsOf(payload); var exp := ParseInt(f[2]).value;
            payload == Payload(SessionFields(s, f[0], f[1], exp, f[3])) <==> f[2] == Itoa(exp) && !Blank(f[1])
  {
    hide Signer.Build, Blank, ParseInt, Split, Payload, FieldsOf, PipeFree, RoleOrAdmin, Itoa;
    var f := FieldsOf(payload);
    var exp := ParseInt(f[2]).value;
    var minted := SessionFields(s, f[0], f[1], exp, f[3]);
    FieldsArePipeFree(payload);
    OwnFields(s, exp);
    RoleOrAdminSpec(f[1]);
    assert minted[0] == f[0] && minted[1] == RoleOrAdmin(f[1]) && minted[2] == Itoa(exp) && minted[3] == f[3] && minted[4] == f[4];
    PayloadIs(payload, minted);
    assert f == minted <==> f[1] == minted[1] && f[2] == minted[2];
  }

  lemma RoleOrAdminSpec(role: Bytes)
    ensures PipeFree(role) ==> PipeFree(RoleOrAdmin(role))
    ensures RoleOrAdmin(role) == role <==> !Blank(role)
  {
    assert SpaceLen("admin") == 0;
  }

  // ---------------------------------------------------------------- step tokens

  const TOTP: Bytes := "totp"
  const SETUP: Bytes := "setup"

  function VerifyStepFields(s: Signer, user: Bytes, role: Bytes, nonce: Bytes, exp: Int64): seq<Bytes> {
    [TOTP, user, role, Decimal(exp), nonce, s.Build()]
  }

  function SetupStepFields(s: Signer, user: Bytes, role: Bytes, secret: Bytes, exp: Int64): seq<Bytes> {
    [SETUP, user, role, Decimal(exp), EncodedBytes(secret), s.Build()]
  }

  function MintTotpVerifyStep(s: Signer, user: Bytes, role: Bytes, nonce: Bytes, exp: Int64): string {
    s.Sign(Payload(VerifyStepFields(s, user, role, nonce, exp)))
  }

  function MintTotpSetupStep(s: Signer, user: Bytes, role: Bytes, secret: Bytes, exp: Int64): string {
    s.Sign(Payload(SetupStepFields(s, user, role, secret, exp)))
  }

  datatype Step = Step(user: string, role: string, data: string, exp: Int64)

  /** The common part of both parsers; the setup token's data field is decoded, before the build
      and expiry checks. */
  function ParseStep(s: Signer, kind: Bytes, decode: bool, token: string, now: int): Result<Step> {
    var payload := s.Open(token);
    if payload.None? then Err(InvalidToken)
    else
      var segs := Split(payload.value, '|');
      if |segs| != 6 || segs[0] != kind then Err(InvalidToken)
      else
        var exp := ParseInt(segs[3]);
        var data := if decode then Decode(segs[4]) else Some(segs[4]);
        if exp.None? then Err(InvalidExpiry)
        else if data.None? then Err(InvalidToken)
        else if segs[5] != s.Build() then Err(StaleBuild)
        else if now > exp.value then Err(Expired)
        else Ok(Step(segs[1], segs[2], data.value, exp.value))
  }

  function ParseTotpVerifyStep(s: Signer, token: string, now: int): Result<Step> {
    ParseStep(s, TOTP, false, token, now)
  }

  function ParseTotpSetupStep(s: Signer, token: string, now: int): Result<Step> {
    ParseStep(s, SETUP, true, token, now)
  }

  /** Both step tokens are read back exactly: a verify token when user, role and nonce hold no
      pipe, a setup token when user and role hold none, whatever its secret. */
  lemma StepRoundTrip(s: Signer, user: Bytes, role: Bytes, data: Bytes, exp: Int64, now: int)
    ensures var r := ParseTotpVerifyStep(s, MintTotpVerifyStep(s, user, role, data, exp), now);
            && (r.Ok? <==> PipeFree(user) && PipeFree(role) && PipeFree(data) && now <= exp)
            && (r.Ok? ==> r.value == Step(user, role, data, exp))
    ensures var r := ParseTotpSetupStep(s, MintTotpSetupStep(s, user, role, data, exp), now);
            && (r.Ok? <==> PipeFree(user) && PipeFree(role) && now <= exp)
            && (r.Ok? ==> r.value == Step(user, role, data, exp))
  {
    DecodeEncode(data);
    ParseStepOf(s, TOTP, false, user, role, data, data, exp, now);
    ParseStepOf(s, SETUP, true, user, role, EncodedBytes(data), data, exp, now);
    EncodeIsEncoding(data);
    assert PipeFree(EncodedBytes(data)) by { assert !IsLetter('|'); }
  }

  lemma ParseStepOf(s: Signer, kind: Bytes, decode: bool, user: Bytes, role: Bytes, field: Bytes, data: Bytes, exp: Int64,
                    now: int)
    requires PipeFree(kind)
    requires if decode then Decode(field) == Some(data) else field == data
    ensures var token := s.Sign(Payload([kind, user, role, Decimal(exp), field, s.Build()]));
            var r := ParseStep(s, kind, decode, token, now);
            && (r.Ok? <==> PipeFree(user) && PipeFree(role) && PipeFree(field) && now <= exp)
            && (r.Ok? ==> r.value == Step(user, role, data, exp))
  {
    var f := [kind, user, role, Decimal(exp), field, s.Build()];
    OpenedFields(s, f);
    OwnFields(s, exp);
    hide Payload, Signer.Open, Signer.Sign, Signer.Build, PipeFree, Split, ParseInt, Decimal, Decode;
    assert f[0] == kind && f[1] == user && f[2] == role && f[3] == Decimal(exp) && f[4] == field && f[5] == s.Build();
    if PipeFree(user) && PipeFree(role) && PipeFree(field) {
      assert forall i :: 0 <= i < |f| ==> PipeFree(f[i]);
    }
  }

  /** No step token is ever a session, whatever its fields, and neither kind of step token is
      ever read as the other. */
  lemma StepTokensAreNoSessions(s: Signer, user: Bytes, role: Bytes, data: Bytes, exp: Int64, now: int)
    ensures VerifySession(s, MintTotpVerifyStep(s, user, role, data, exp), now) == Err(StaleFormat)
    ensures VerifySession(s, MintTotpSetupStep(s, user, role, data, exp), now) == Err(StaleFormat)
    ensures ParseTotpSetupStep(s, MintTotpVerifyStep(s, user, role, data, exp), now) == Err(InvalidToken)
    ensures ParseTotpVerifyStep(s, MintTotpSetupStep(s, user, role, data, exp), now) == Err(InvalidToken)
  {
    OpenedFields(s, VerifyStepFields(s, user, role, data, exp));
    OpenedFields(s, SetupStepFields(s, user, role, data, exp));
  }

  /** A user name with a pipe is minted but never accepted. */
  lemma PipedUserIsRefused(s: Signer, exp: Int64, now: int)
    ensures VerifySession(s, MintSession(s, "a|b", "admin", exp, "n1"), now) == Err(StaleFormat)
  {
    SessionRoundTrip(s, "a|b", "admin", exp, "n1", now);
    assert "a|b"[1] == '|';
  }
}
