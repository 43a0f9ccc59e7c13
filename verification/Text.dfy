/** The string helpers the components share: Go's strings.TrimSpace, ToLower, Fields, Split,
    Join and decimal printing, over strings that are sequences of Unicode scalar values. */
module Text {

  /** Go's unicode.IsSpace. */
  predicate IsSpace(c: char) {
    || '\t' <= c <= '\r' || c == ' '
    || c == '\U{85}' || c == '\U{A0}' || c == '\U{1680}' || '\U{2000}' <= c <= '\U{200A}'
    || c == '\U{2028}' || c == '\U{2029}' || c == '\U{202F}' || c == '\U{205F}' || c == '\U{3000}'
  }

  predicate NoSpace(s: string) {
    forall i :: 0 <= i < |s| ==> !IsSpace(s[i])
  }

  function TrimLeft(s: string): string {
    if s != "" && IsSpace(s[0]) then TrimLeft(s[1..]) else s
  }

  function TrimRight(s: string): string {
    if s != "" && IsSpace(s[|s| - 1]) then TrimRight(s[..|s| - 1]) else s
  }

  /** strings.TrimSpace */
  function Trim(s: string): string {
    TrimRight(TrimLeft(s))
  }

  predicate Trimmed(s: string) {
    s == "" || (!IsSpace(s[0]) && !IsSpace(s[|s| - 1]))
  }

  /** unicode.ToLower, exact on ASCII and on the two other characters whose lower case is an
      ASCII letter; the rest of Unicode is left as it is. */
  function LowerChar(c: char): char {
    if 'A' <= c <= 'Z' then (c as int + 32) as char
    else if c == '\U{130}' then 'i'
    else if c == '\U{212A}' then 'k'
    else c
  }

  /** strings.ToLower */
  function Lower(s: string): (r: string)
    ensures |r| == |s|
  {
    seq(|s|, i requires 0 <= i < |s| => LowerChar(s[i]))
  }

  lemma {:induction false} TrimRightEnds(s: string)
    ensures var r := TrimRight(s); r <= s && (r == "" || !IsSpace(r[|r| - 1]))
    decreases |s|
  {
    if s != "" && IsSpace(s[|s| - 1]) {
      TrimRightEnds(s[..|s| - 1]);
    }
  }

  lemma {:induction false} TrimLeftEnds(s: string)
    ensures var r := TrimLeft(s); |r| <= |s| && (r == "" || !IsSpace(r[0]))
  {
    if s != "" && IsSpace(s[0]) {
      TrimLeftEnds(s[1..]);
    }
  }

  lemma TrimIsTrimmed(s: string)
    ensures Trimmed(Trim(s)) && |Trim(s)| <= |s|
  {
    TrimLeftEnds(s);
    TrimRightEnds(TrimLeft(s));
  }

  lemma TrimIdempotent(s: string)
    ensures Trim(Trim(s)) == Trim(s)
  {
    TrimIsTrimmed(s);
  }

  lemma {:induction false} TrimLeftMeans(s: string) returns (a: string)
    ensures s == a + TrimLeft(s) && forall i :: 0 <= i < |a| ==> IsSpace(a[i])
  {
    a := "";
    if s != "" && IsSpace(s[0]) {
      var more := TrimLeftMeans(s[1..]);
      a := [s[0]] + more;
    }
  }

  lemma {:induction false} TrimRightMeans(s: string) returns (b: string)
    ensures s == TrimRight(s) + b && forall i :: 0 <= i < |b| ==> IsSpace(b[i])
    decreases |s|
  {
    b := "";
    if s != "" && IsSpace(s[|s| - 1]) {
      var more := TrimRightMeans(s[..|s| - 1]);
      b := more + [s[|s| - 1]];
    }
  }

  lemma PrefixedIsTrimmed(prefix: string, d: string)
    requires prefix != "" && Trimmed(prefix) && Trimmed(d)
    ensures Trim(prefix + d) == prefix + d
  {
    var s := prefix + d;
    assert s[0] == prefix[0];
    assert s[|s| - 1] == if d == "" then prefix[|prefix| - 1] else d[|d| - 1];
  }

  /** Trimming takes white space off both ends, and all of it. */
  lemma TrimMeans(s: string) returns (a: string, b: string)
    ensures s == a + Trim(s) + b
    ensures (forall i :: 0 <= i < |a| ==> IsSpace(a[i])) && (forall i :: 0 <= i < |b| ==> IsSpace(b[i]))
    ensures Trim(s) != "" ==> !IsSpace(Trim(s)[0]) && !IsSpace(Trim(s)[|Trim(s)| - 1])
  {
    a := TrimLeftMeans(s);
    b := TrimRightMeans(TrimLeft(s));
    TrimIsTrimmed(s);
    hide TrimLeft, TrimRight;
  }

  /** Lower-casing changes ASCII capitals to their small letters and leaves other ASCII characters. */
  lemma LowerMeans(s: string, i: nat)
    requires i < |s| && s[i] < '\U{80}'
    ensures 'A' <= s[i] <= 'Z' ==> 'a' <= Lower(s)[i] <= 'z' && Lower(s)[i] - 'a' == s[i] - 'A'
    ensures !('A' <= s[i] <= 'Z') ==> Lower(s)[i] == s[i]
  {
  }

  /** The length of the leading run of non-space characters. */
  function WordLen(s: string): (n: nat)
    ensures n <= |s| && NoSpace(s[..n])
    ensures n < |s| ==> IsSpace(s[n])
  {
    if s == "" || IsSpace(s[0]) then 0 else
      var n := 1 + WordLen(s[1..]);
      assert s[..n] == [s[0]] + s[1..][..n - 1];
      n
  }

  /** strings.Fields */
  function Fields(s: string): seq<string>
    decreases |s|
  {
    var t := TrimLeft(s);
    if t == "" then [] else
      TrimLeftEnds(s);
      var n := WordLen(t);
      [t[..n]] + Fields(t[n..])
  }

  lemma FieldsOfWord(s: string)
    requires s != "" && NoSpace(s)
    ensures Fields(s) == [s]
  {
    assert TrimLeft(s) == s && WordLen(s) == |s|;
    assert s[..|s|] == s && s[|s|..] == "";
  }

  lemma {:induction false} NonSpaceSurvivesTrimLeft(s: string)
    requires s != "" && !IsSpace(s[|s| - 1])
    ensures TrimLeft(s) != ""
  {
    if IsSpace(s[0]) {
      NonSpaceSurvivesTrimLeft(s[1..]);
    }
  }

  /** A trimmed, non-empty string is one field exactly when it has no inner white space. */
  lemma {:induction false} FieldsCount(s: string)
    requires s != "" && Trimmed(s)
    ensures |Fields(s)| >= 1
    ensures |Fields(s)| == 1 <==> NoSpace(s)
    ensures NoSpace(s) ==> Fields(s) == [s]
  {
    assert TrimLeft(s) == s;
    var n := WordLen(s);
    if n == |s| {
      assert s[..n] == s;
      FieldsOfWord(s);
    } else {
      assert !NoSpace(s);
      var rest := s[n..];
      assert rest[|rest| - 1] == s[|s| - 1];
      NonSpaceSurvivesTrimLeft(rest);
    }
  }

  lemma {:induction false} TrimLeftTwice(s: string)
    ensures TrimLeft(TrimLeft(s)) == TrimLeft(s)
  {
    TrimLeftEnds(s);
  }

  lemma {:induction false} WordEndsAtSpace(s: string, n: nat)
    requires n < |s| && NoSpace(s[..n]) && IsSpace(s[n])
    ensures WordLen(s) == n
  {
    hide IsSpace;
    if n > 0 {
      assert s[..n][0] == s[0];
      forall i | 0 <= i < n - 1 ensures !IsSpace(s[1..][i]) {
        assert s[1..][i] == s[..n][i + 1];
      }
      WordEndsAtSpace(s[1..], n - 1);
    }
  }

  /** White space separates the fields before it from those after it. */
  lemma {:induction false} FieldsApart(a: string, c: char, b: string)
    requires IsSpace(c)
    ensures Fields(a + [c] + b) == Fields(a) + Fields(b)
    decreases |a|
  {
    var s := a + [c] + b;
    if a == "" {
      assert s[0] == c && s[1..] == b;
      assert TrimLeft(s) == TrimLeft(b);
    } else if IsSpace(a[0]) {
      assert s[0] == a[0] && s[1..] == a[1..] + [c] + b;
      FieldsApart(a[1..], c, b);
    } else {
      var n := WordLen(a);
      assert s[0] == a[0] && TrimLeft(a) == a && TrimLeft(s) == s;
      assert s[..n] == a[..n] && s[n..] == a[n..] + [c] + b;
      assert n < |a| ==> s[n] == a[n];
      WordEndsAtSpace(s, n);
      FieldsApart(a[n..], c, b);
    }
  }

  predicate AllDigits(s: string) {
    forall i :: 0 <= i < |s| ==> '0' <= s[i] <= '9'
  }

  function DigitChar(d: nat): (c: char)
    requires d < 10
    ensures '0' <= c <= '9'
  {
    ('0' as int + d) as char
  }

  /** The decimal digits of n. */
  function Digits(n: nat): (r: string)
    ensures r != "" && AllDigits(r)
  {
    if n < 10 then [DigitChar(n)] else Digits(n / 10) + [DigitChar(n % 10)]
  }

  /** The number a digit string denotes. */
  function DigitsValue(s: string): (n: nat)
    requires AllDigits(s)
  {
    if s == "" then 0 else 10 * DigitsValue(s[..|s| - 1]) + (s[|s| - 1] as int - '0' as int)
  }

  lemma {:induction false} DigitsRoundTrip(n: nat)
    ensures DigitsValue(Digits(n)) == n
  {
    var r := Digits(n);
    if n >= 10 {
      DigitsRoundTrip(n / 10);
      assert r[..|r| - 1] == Digits(n / 10);
    } else {
      assert r[..|r| - 1] == "";
    }
  }

  lemma DigitsInjective(m: nat, n: nat)
    requires Digits(m) == Digits(n)
    ensures m == n
  {
    DigitsRoundTrip(m);
    DigitsRoundTrip(n);
  }

  /** strconv.Itoa */
  function Itoa(n: int): string {
    if n < 0 then "-" + Digits(-n) else Digits(n)
  }

  /** strings.Contains */
  predicate Contains(s: string, part: string) {
    part <= s || (s != "" && Contains(s[1..], part))
  }

  lemma {:induction false} ContainsMeans(s: string, part: string)
    ensures Contains(s, part) <==> exists k :: 0 <= k <= |s| && part <= s[k..]
  {
    if part <= s {
      assert s[0..] == s;
    } else if s != "" {
      ContainsMeans(s[1..], part);
      if k :| 0 <= k <= |s[1..]| && part <= s[1..][k..] {
        assert s[1..][k..] == s[k + 1..];
      }
      if k :| 0 <= k <= |s| && part <= s[k..] {
        assert s[0..] == s;
        assert s[1..][k - 1..] == s[k..];
      }
    }
  }

  /** The bytes of a character in UTF-8. */
  function Width(c: char): (n: nat)
    ensures 1 <= n <= 4
  {
    if (c as int) < 0x80 then 1 else if (c as int) < 0x800 then 2 else if (c as int) < 0x1_0000 then 3 else 4
  }

  function ByteLen(s: string): nat {
    if s == "" then 0 else ByteLen(s[..|s| - 1]) + Width(s[|s| - 1])
  }

  /** UTF-8: the bytes of two texts add up, and the four lengths of a character. */
  lemma {:induction false} ByteLenMeans(a: string, b: string, c: char)
    ensures ByteLen(a + b) == ByteLen(a) + ByteLen(b)
    ensures ByteLen("") == 0
    ensures ByteLen([c]) == if (c as int) < 128 then 1 else if (c as int) < 2048 then 2 else if (c as int) < 65536 then 3 else 4
    decreases |b|
  {
    assert [c][..0] == "";
    if b == "" {
      assert a + b == a;
    } else {
      ByteLenMeans(a, b[..|b| - 1], c);
      assert (a + b)[..|a + b| - 1] == a + b[..|b| - 1];
    }
  }

  predicate Free(s: string, c: char) {
    forall i :: 0 <= i < |s| ==> s[i] != c
  }

  /** The position of the first c in s, or |s|. */
  function Find(s: string, c: char): (n: nat)
    ensures n <= |s| && forall i :: 0 <= i < n ==> s[i] != c
    ensures n < |s| ==> s[n] == c
  {
    if s == "" || s[0] == c then 0 else
      var n := 1 + Find(s[1..], c);
      assert s[..n] == [s[0]] + s[1..][..n - 1];
      n
  }

  /** strings.Split with a one-character separator */
  function Split(s: string, c: char): (parts: seq<string>)
    ensures |parts| >= 1
    decreases |s|
  {
    var n := Find(s, c);
    if n == |s| then [s] else [s[..n]] + Split(s[n + 1..], c)
  }

  /** strings.Join with a one-character separator */
  function Join(parts: seq<string>, c: char): string {
    if parts == [] then ""
    else if |parts| == 1 then parts[0]
    else parts[0] + [c] + Join(parts[1..], c)
  }

  lemma SplitHead(a: string, c: char, b: string)
    requires Free(a, c)
    ensures Split(a + [c] + b, c) == [a] + Split(b, c)
  {
    var s := a + [c] + b;
    var n := Find(s, c);
    assert s[|a|] == c;
    assert n == |a|;
    assert s[..n] == a && s[n + 1..] == b;
  }

  lemma SplitFree(a: string, c: char)
    requires Free(a, c)
    ensures Split(a, c) == [a]
  {
  }

  /** Splitting undoes joining exactly when the parts hold no separator. */
  lemma {:induction false} SplitJoin(parts: seq<string>, c: char)
    requires parts != [] && forall i :: 0 <= i < |parts| ==> Free(parts[i], c)
    ensures Split(Join(parts, c), c) == parts
  {
    if |parts| == 1 {
      SplitFree(parts[0], c);
    } else {
      SplitJoin(parts[1..], c);
      SplitHead(parts[0], c, Join(parts[1..], c));
    }
  }

  lemma {:induction false} SplitFirst(s: string, c: char)
    ensures var n := Find(s, c); Split(s, c) == if n == |s| then [s] else [s[..n]] + Split(s[n + 1..], c)
  {
  }

  /** Joining undoes splitting, and the parts are free of the separator. */
  lemma {:induction false} JoinSplit(s: string, c: char)
    ensures Join(Split(s, c), c) == s
    ensures forall i :: 0 <= i < |Split(s, c)| ==> Free(Split(s, c)[i], c)
    decreases |s|
  {
    hide Split, Join;
    var n := Find(s, c);
    SplitFirst(s, c);
    if n < |s| {
      JoinSplit(s[n + 1..], c);
      JoinCons(s[..n], Split(s[n + 1..], c), c);
      assert s == s[..n] + [c] + s[n + 1..];
    } else {
      JoinOne(s, c);
    }
  }

  lemma JoinOne(part: string, c: char)
    ensures Join([part], c) == part
  {
  }

  lemma JoinCons(part: string, rest: seq<string>, c: char)
    requires rest != []
    ensures Join([part] + rest, c) == part + [c] + Join(rest, c)
  {
    assert ([part] + rest)[1..] == rest;
  }

  /** How many times c occurs in s. */
  function Count(s: string, c: char): nat {
    if s == "" then 0 else (if s[0] == c then 1 else 0) + Count(s[1..], c)
  }

  lemma {:induction false} CountAppend(a: string, b: string, c: char)
    ensures Count(a + b, c) == Count(a, c) + Count(b, c)
  {
    if a == "" {
      assert a + b == b;
    } else {
      assert (a + b)[1..] == a[1..] + b;
      CountAppend(a[1..], b, c);
    }
  }

  lemma {:induction false} CountZero(a: string, c: char)
    ensures Count(a, c) == 0 <==> Free(a, c)
  {
    if a != "" {
      CountZero(a[1..], c);
      if Free(a[1..], c) && a[0] != c {
        forall i | 0 <= i < |a| ensures a[i] != c {
          if i > 0 { assert a[i] == a[1..][i - 1]; }
        }
      }
      if Free(a, c) {
        forall i | 0 <= i < |a| - 1 ensures a[1..][i] != c {
          assert a[1..][i] == a[i + 1];
        }
      }
    }
  }

  lemma {:induction false} SplitLength(s: string, c: char)
    ensures |Split(s, c)| == Count(s, c) + 1
    decreases |s|
  {
    var n := Find(s, c);
    if n == |s| {
      assert s[..n] == s;
      CountZero(s, c);
    } else {
      SplitLength(s[n + 1..], c);
      assert s == s[..n] + ([c] + s[n + 1..]);
      CountAppend(s[..n], [c] + s[n + 1..], c);
      CountZero(s[..n], c);
      assert ([c] + s[n + 1..])[1..] == s[n + 1..];
    }
  }

  /** Splitting a joined list gives at least as many parts, and gives the list back exactly when
      no part holds the separator. */
  lemma {:induction false} SplitJoinExact(parts: seq<string>, c: char)
    requires parts != []
    ensures var r := Split(Join(parts, c), c);
            && |r| >= |parts|
            && (|r| == |parts| <==> forall i :: 0 <= i < |parts| ==> Free(parts[i], c))
            && (|r| == |parts| ==> r == parts)
  {
    SplitLength(Join(parts, c), c);
    CountJoin(parts, c);
    if forall i :: 0 <= i < |parts| ==> Free(parts[i], c) {
      SplitJoin(parts, c);
    }
  }

  lemma {:induction false} CountJoin(parts: seq<string>, c: char)
    requires parts != []
    ensures Count(Join(parts, c), c) >= |parts| - 1
    ensures Count(Join(parts, c), c) == |parts| - 1 <==> forall i :: 0 <= i < |parts| ==> Free(parts[i], c)
  {
    CountZero(parts[0], c);
    if |parts| > 1 {
      var rest := parts[1..];
      CountJoin(rest, c);
      CountAppend(parts[0] + [c], Join(rest, c), c);
      CountAppend(parts[0], [c], c);
      assert Count([c], c) == 1 by { assert [c][1..] == ""; }
      assert forall i :: 0 < i < |parts| ==> parts[i] == rest[i - 1];
      assert forall i :: 0 <= i < |rest| ==> rest[i] == parts[i + 1];
    }
  }
}
