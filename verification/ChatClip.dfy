/** Normalising and clipping a chat request: internal/app_openclaw_chat.go, lines 38-142. */
module ChatClip {
  import opened Text

  datatype Msg = Msg(role: string, content: string)

  const MAX_MESSAGES := 32
  const MAX_CONTENT_RUNES := 24000
  const MAX_CUTS := 64
  const MIN_KEEP := 80

  /** The 15 runes that replace the end of a clipped message. */
  const SUFFIX: string := "\n…(内容过长，已由平台截断)"

  predicate IsUser(m: Msg) {
    Lower(Trim(m.role)) == "user"
  }

  // ---------------------------------------------------------------- sums over a conversation

  function Sum(w: Msg -> nat, ms: seq<Msg>): nat {
    if ms == [] then 0 else Sum(w, ms[..|ms| - 1]) + w(ms[|ms| - 1])
  }

  lemma {:induction false} SumUpdate(w: Msg -> nat, ms: seq<Msg>, i: nat, m: Msg)
    requires i < |ms|
    ensures Sum(w, ms[i := m]) == Sum(w, ms) - w(ms[i]) + w(m)
  {
    var n := |ms| - 1;
    if i == n {
      assert ms[i := m][..n] == ms[..n];
    } else {
      assert ms[i := m][..n] == ms[..n][i := m];
      SumUpdate(w, ms[..n], i, m);
    }
  }

  lemma {:induction false} SumMonotone(v: Msg -> nat, w: Msg -> nat, ms: seq<Msg>)
    requires forall i :: 0 <= i < |ms| ==> v(ms[i]) <= w(ms[i])
    ensures Sum(v, ms) <= Sum(w, ms)
  {
    if ms != [] {
      SumMonotone(v, w, ms[..|ms| - 1]);
    }
  }

  lemma {:induction false} SumBound(w: Msg -> nat, ms: seq<Msg>, b: nat)
    requires forall i :: 0 <= i < |ms| ==> w(ms[i]) <= b
    ensures Sum(w, ms) <= b * |ms|
  {
    if ms != [] {
      SumBound(w, ms[..|ms| - 1], b);
    }
  }

  lemma {:induction false} SumTerm(w: Msg -> nat, ms: seq<Msg>, i: nat)
    requires i < |ms|
    ensures w(ms[i]) <= Sum(w, ms)
  {
    if i < |ms| - 1 {
      SumTerm(w, ms[..|ms| - 1], i);
    }
  }

  function Runes(m: Msg): nat {
    |m.content|
  }

  function Total(ms: seq<Msg>): nat {
    Sum(Runes, ms)
  }

  // ---------------------------------------------------------------- which message is cut

  /** Some user message has text. */
  predicate AnyUser(ms: seq<Msg>) {
    exists i :: 0 <= i < |ms| && IsUser(ms[i]) && ms[i].content != ""
  }

  /** The messages the loop may cut: the user messages if any has text, otherwise all. */
  predicate Eligible(m: Msg, anyUser: bool) {
    anyUser ==> IsUser(m)
  }

  function LengthAt(ms: seq<Msg>, i: int): nat
    requires -1 <= i < |ms|
  {
    if i < 0 then 0 else |ms[i].content|
  }

  /** The result of the downward scan over the user messages at positions k and above. */
  function LastLongestUser(ms: seq<Msg>, k: nat): (r: int)
    requires k <= |ms|
    ensures r == -1 || k <= r < |ms|
    decreases |ms| - k
  {
    if k == |ms| then -1 else
      var r := LastLongestUser(ms, k + 1);
      if IsUser(ms[k]) && |ms[k].content| > LengthAt(ms, r) then k else r
  }

  /** The result of the upward scan over all messages below position k. */
  function FirstLongest(ms: seq<Msg>, k: nat): (r: int)
    requires k <= |ms|
    ensures -1 <= r < k
  {
    if k == 0 then -1 else
      var r := FirstLongest(ms, k - 1);
      if |ms[k - 1].content| > LengthAt(ms, r) then k - 1 else r
  }

  function Victim(ms: seq<Msg>): (r: int)
    ensures -1 <= r < |ms|
  {
    var u := LastLongestUser(ms, 0);
    if u >= 0 then u else FirstLongest(ms, |ms|)
  }

  lemma {:induction false} LastLongestUserSpec(ms: seq<Msg>, k: nat)
    requires k <= |ms|
    ensures var r := LastLongestUser(ms, k);
            && (r >= 0 ==> IsUser(ms[r]) && ms[r].content != "")
            && (forall i :: k <= i < |ms| && IsUser(ms[i]) ==> |ms[i].content| <= LengthAt(ms, r))
            && (forall i :: r < i < |ms| && k <= i && IsUser(ms[i]) && r >= 0
                  ==> |ms[i].content| < LengthAt(ms, r))
    decreases |ms| - k
  {
    if k < |ms| {
      LastLongestUserSpec(ms, k + 1);
    }
  }

  lemma {:induction false} FirstLongestSpec(ms: seq<Msg>, k: nat)
    requires k <= |ms|
    ensures var r := FirstLongest(ms, k);
            && (r >= 0 ==> ms[r].content != "")
            && (forall i :: 0 <= i < k ==> |ms[i].content| <= LengthAt(ms, r))
            && (forall i :: 0 <= i < r ==> |ms[i].content| < LengthAt(ms, r))
  {
    if k > 0 {
      FirstLongestSpec(ms, k - 1);
    }
  }

  /** The cut falls on a longest eligible message: the last such user message, or the first such
      message when no user message has text. There is none only when every message is empty. */
  lemma VictimIsLongest(ms: seq<Msg>)
    ensures var v := Victim(ms); var any := AnyUser(ms);
            && (v == -1 <==> forall i :: 0 <= i < |ms| ==> ms[i].content == "")
            && (v >= 0 ==> Eligible(ms[v], any) && ms[v].content != "")
            && (v >= 0 ==> forall i :: 0 <= i < |ms| && Eligible(ms[i], any) ==> |ms[i].content| <= |ms[v].content|)
            && (v >= 0 && any ==> forall i :: v < i < |ms| && IsUser(ms[i]) ==> |ms[i].content| < |ms[v].content|)
            && (v >= 0 && !any ==> forall i :: 0 <= i < v ==> |ms[i].content| < |ms[v].content|)
  {
    LastLongestUserSpec(ms, 0);
    FirstLongestSpec(ms, |ms|);
    var u := LastLongestUser(ms, 0);
    if u >= 0 {
      assert AnyUser(ms);
    } else {
      assert !AnyUser(ms);
    }
  }

  // ---------------------------------------------------------------- one cut, and the loop as a function

  /** The text left of a message of which drop runes should go. */
  function Cut(content: string, drop: int): string
    requires drop >= 16
  {
    if |content| <= |SUFFIX| + MIN_KEEP then SUFFIX
    else
      var keep := if |content| - drop < MIN_KEEP then MIN_KEEP else |content| - drop;
      content[..keep] + SUFFIX
  }

  function CutAt(ms: seq<Msg>, max: int, v: nat): seq<Msg>
    requires v < |ms| && Total(ms) > max
  {
    ms[v := ms[v].(content := Cut(ms[v].content, Total(ms) - max + |SUFFIX|))]
  }

  /** What at most cuts rounds of the loop make of ms. */
  function Clipped(ms: seq<Msg>, max: int, cuts: nat): (r: seq<Msg>)
    ensures |r| == |ms|
    decreases cuts
  {
    if cuts == 0 || Total(ms) <= max || Victim(ms) < 0 then ms
    else Clipped(CutAt(ms, max, Victim(ms)), max, cuts - 1)
  }

  method TotalRunes(ms: seq<Msg>) returns (n: nat)
    ensures n == Total(ms)
  {
    n := 0;
    for i := 0 to |ms|
      invariant n == Total(ms[..i])
    {
      assert ms[..i + 1][..i] == ms[..i];
      n := n + |ms[i].content|;
    }
    assert ms[..|ms|] == ms;
  }

  /** The two scans for the message to cut. */
  method FindVictim(out: seq<Msg>) returns (idx: int)
    ensures idx == Victim(out)
  {
    idx := -1;
    var best := 0;
    for i := |out| downto 0
      invariant idx == LastLongestUser(out, i) && best == LengthAt(out, idx)
    {
      if IsUser(out[i]) && |out[i].content| > best {
        idx, best := i, |out[i].content|;
      }
    }
    if idx < 0 {
      for i := 0 to |out|
        invariant idx == FirstLongest(out, i) && best == LengthAt(out, idx)
      {
        if |out[i].content| > best {
          idx, best := i, |out[i].content|;
        }
      }
    }
  }

  lemma ClippedStep(ms: seq<Msg>, max: int, cuts: nat)
    ensures cuts == 0 || Total(ms) <= max || Victim(ms) < 0 ==> Clipped(ms, max, cuts) == ms
    ensures cuts > 0 && Total(ms) > max && Victim(ms) >= 0 ==>
              Clipped(ms, max, cuts) == Clipped(CutAt(ms, max, Victim(ms)), max, cuts - 1)
  {
    hide Total, Victim, CutAt;
  }

  method Clip(msgs: seq<Msg>, max: int) returns (out: seq<Msg>)
    ensures out == Clipped(msgs, max, MAX_CUTS)
  {
    hide Clipped, Total, Victim;
    out := msgs;
    var iter := 0;
    var total := TotalRunes(out);
    while iter < MAX_CUTS && total > max
      invariant 0 <= iter <= MAX_CUTS && total == Total(out)
      invariant Clipped(msgs, max, MAX_CUTS) == Clipped(out, max, MAX_CUTS - iter)
      decreases MAX_CUTS - iter
    {
      ClippedStep(out, max, MAX_CUTS - iter);
      var drop := total - max + |SUFFIX|;
      if drop < 1 {
        drop := 1;
      }
      var idx := FindVictim(out);
      if idx < 0 {
        return;
      }
      var r := out[idx].content;
      if |r| <= |SUFFIX| + MIN_KEEP {
        out := out[idx := out[idx].(content := SUFFIX)];
      } else {
        var keep := |r| - drop;
        if keep < MIN_KEEP {
          keep := MIN_KEEP;
        }
        if keep + |SUFFIX| > |r| {
          assert false;  // lines 131-137 never run
        }
        out := out[idx := out[idx].(content := r[..keep] + SUFFIX)];
      }
      iter := iter + 1;
      total := TotalRunes(out);
    }
    ClippedStep(out, max, MAX_CUTS - iter);
  }

  // ---------------------------------------------------------------- what the loop can reach

  function FloorRunes(anyUser: bool): Msg -> nat {
    (m: Msg) => if Eligible(m, anyUser) && |m.content| > |SUFFIX| then |SUFFIX| else |m.content|
  }

  /** The least total the loop can reach: at most the suffix for each eligible message. */
  function Floor(ms: seq<Msg>): nat {
    Sum(FloorRunes(AnyUser(ms)), ms)
  }

  function CutsLeftOf(anyUser: bool): Msg -> nat {
    (m: Msg) =>
      if !Eligible(m, anyUser) || |m.content| <= |SUFFIX| then 0
      else if |m.content| <= |SUFFIX| + MIN_KEEP then 1
      else 2
  }

  /** How many cuts can still shorten the conversation. */
  function CutsLeft(ms: seq<Msg>): nat {
    Sum(CutsLeftOf(AnyUser(ms)), ms)
  }

  /** No eligible message is longer than the suffix. */
  predicate Settled(ms: seq<Msg>) {
    forall i :: 0 <= i < |ms| && Eligible(ms[i], AnyUser(ms)) ==> |ms[i].content| <= |SUFFIX|
  }

  lemma FloorBelowTotal(ms: seq<Msg>)
    ensures Floor(ms) <= Total(ms)
    ensures Settled(ms) ==> Floor(ms) == Total(ms)
  {
    var w := FloorRunes(AnyUser(ms));
    SumMonotone(w, Runes, ms);
    if Settled(ms) {
      SumMonotone(Runes, w, ms);
    }
  }

  lemma EmptyTotal(ms: seq<Msg>)
    requires Victim(ms) < 0
    ensures Total(ms) == 0
  {
    VictimIsLongest(ms);
    SumBound(Runes, ms, 0);
  }

  /** One cut: eligibility stays, the floor never falls, and a cut of a message longer than the
      suffix either lands exactly on max or uses up one of the cuts left. */
  lemma CutProgress(ms: seq<Msg>, max: int)
    requires Total(ms) > max && Victim(ms) >= 0
    ensures var v := Victim(ms); var next := CutAt(ms, max, v);
            && AnyUser(next) == AnyUser(ms)
            && Floor(next) >= Floor(ms)
            && (|ms[v].content| <= |SUFFIX| <==> Settled(ms))
            && (Settled(ms) ==> Settled(next))
            && (!Settled(ms) ==> Floor(next) == Floor(ms))
            && (!Settled(ms) ==> Total(next) == max || CutsLeft(next) < CutsLeft(ms))
  {
    VictimIsLongest(ms);
    var v := Victim(ms);
    var next := CutAt(ms, max, v);
    var any := AnyUser(ms);
    assert AnyUser(next) == any by {
      if any { assert IsUser(next[v]) && next[v].content != ""; }
    }
    SumUpdate(FloorRunes(any), ms, v, next[v]);
    SumUpdate(CutsLeftOf(any), ms, v, next[v]);
    SumUpdate(Runes, ms, v, next[v]);
  }

  lemma UnsettledHasCuts(ms: seq<Msg>, max: int)
    requires Total(ms) > max && Victim(ms) >= 0 && !Settled(ms)
    ensures CutsLeft(ms) > 0
  {
    CutProgress(ms, max);
    VictimIsLongest(ms);
    SumTerm(CutsLeftOf(AnyUser(ms)), ms, Victim(ms));
    hide Victim, AnyUser, Total, Floor, CutAt, Settled;
  }

  /** Central fact, by induction on the cuts that remain. */
  lemma {:induction false} ClippedReachesFloor(ms: seq<Msg>, max: int, cuts: nat)
    requires max >= 0 && CutsLeft(ms) <= cuts
    ensures var r := Clipped(ms, max, cuts);
            && (Total(r) <= max || Settled(r))
            && (Total(r) <= max <==> Floor(ms) <= max)
    decreases cuts
  {
    hide Total, Victim, Settled, Floor, CutsLeft, CutAt, AnyUser;
    FloorBelowTotal(ms);
    if Total(ms) > max {
      if Victim(ms) < 0 {
        EmptyTotal(ms);
      } else {
        CutProgress(ms, max);
        var next := CutAt(ms, max, Victim(ms));
        if Settled(ms) {
          ClippedStaysSettled(ms, max, cuts);
        } else {
          UnsettledHasCuts(ms, max);
          if Total(next) == max {
            FloorBelowTotal(next);
          } else {
            ClippedReachesFloor(next, max, cuts - 1);
          }
        }
      }
    }
  }

  lemma {:induction false} ClippedStaysSettled(ms: seq<Msg>, max: int, cuts: nat)
    requires Settled(ms) && Total(ms) > max >= 0
    ensures var r := Clipped(ms, max, cuts); Settled(r) && Total(r) > max
    decreases cuts
  {
    FloorBelowTotal(ms);
    if Victim(ms) < 0 {
      EmptyTotal(ms);
    } else if cuts > 0 {
      CutProgress(ms, max);
      var next := CutAt(ms, max, Victim(ms));
      FloorBelowTotal(next);
      ClippedStaysSettled(next, max, cuts - 1);
    }
  }

  /** Two rounds for each message suffice: the result fits in max, or every eligible message is
      down to the suffix; and it fits exactly when the floor of the input does. */
  lemma TwoCutsEachSuffice(msgs: seq<Msg>, max: int, cuts: nat)
    requires max >= 0 && 2 * |msgs| <= cuts
    ensures var out := Clipped(msgs, max, cuts);
            && (Total(out) <= max || Settled(out))
            && (Total(out) <= max <==> Floor(msgs) <= max)
  {
    SumBound(CutsLeftOf(AnyUser(msgs)), msgs, 2);
    ClippedReachesFloor(msgs, max, cuts);
  }

  /** So the loop's 64 rounds do for the 32 messages a request may hold. */
  lemma ClipSuffices(msgs: seq<Msg>, max: int)
    requires |msgs| <= MAX_MESSAGES && max >= 0
    ensures var out := Clipped(msgs, max, MAX_CUTS);
            && (Total(out) <= max || Settled(out))
            && (Total(out) <= max <==> Floor(msgs) <= max)
            && (Total(out) > max ==>
                  forall i :: 0 <= i < |out| && Eligible(out[i], AnyUser(out)) ==> |out[i].content| <= 15)
  {
    TwoCutsEachSuffice(msgs, max, MAX_CUTS);
  }

  /** When max is the floor itself, no fewer than CutsLeft rounds will do. */
  lemma {:induction false} FewerCutsFail(ms: seq<Msg>, max: int, cuts: nat)
    requires Floor(ms) == max && cuts < CutsLeft(ms)
    ensures Total(Clipped(ms, max, cuts)) > max
    decreases cuts
  {
    var any := AnyUser(ms);
    FloorBelowTotal(ms);
    if Settled(ms) {
      SumBound(CutsLeftOf(any), ms, 0);
    } else {
      UnsettledAboveFloor(ms);
      if cuts > 0 && Victim(ms) >= 0 {
        CutProgress(ms, max);
        VictimIsLongest(ms);
        var v := Victim(ms);
        var next := CutAt(ms, max, v);
        SumUpdate(CutsLeftOf(any), ms, v, next[v]);
        FloorBelowTotal(next);
        if |ms[v].content| > |SUFFIX| + MIN_KEEP {
          assert !Settled(next) by { assert Eligible(next[v], any) && |next[v].content| > |SUFFIX|; }
          UnsettledAboveFloor(next);
        }
        FewerCutsFail(next, max, cuts - 1);
      }
    }
  }

  predicate LongUsers(ms: seq<Msg>) {
    forall i :: 0 <= i < |ms| ==> IsUser(ms[i]) && |ms[i].content| > |SUFFIX| + MIN_KEEP
  }

  lemma {:induction false} TwoCutsEach(ms: seq<Msg>, anyUser: bool)
    requires LongUsers(ms)
    ensures Sum(CutsLeftOf(anyUser), ms) == 2 * |ms|
  {
    if ms != [] {
      TwoCutsEach(ms[..|ms| - 1], anyUser);
    }
  }

  /** So 64 rounds are not one too many: 32 user messages of 96 runes or more, with a limit of
      exactly what they can be cut down to, need all of them. */
  lemma SixtyFourAreNeeded(ms: seq<Msg>, cuts: nat)
    requires |ms| == MAX_MESSAGES && LongUsers(ms) && cuts < MAX_CUTS
    ensures Total(Clipped(ms, Floor(ms), cuts)) > Floor(ms) >= Total(Clipped(ms, Floor(ms), MAX_CUTS))
  {
    TwoCutsEach(ms, AnyUser(ms));
    FewerCutsFail(ms, Floor(ms), cuts);
    ClipSuffices(ms, Floor(ms));
  }

  lemma UnsettledAboveFloor(ms: seq<Msg>)
    requires !Settled(ms)
    ensures Floor(ms) < Total(ms)
  {
    var any := AnyUser(ms);
    var i :| 0 <= i < |ms| && Eligible(ms[i], any) && |ms[i].content| > |SUFFIX|;
    var cut := ms[i].(content := SUFFIX);
    SumUpdate(Runes, ms, i, cut);
    SumUpdate(FloorRunes(any), ms, i, cut);
    SumMonotone(FloorRunes(any), Runes, ms[i := cut]);
  }

  /** A cut that leaves at least 80 runes ends the loop with a total of exactly max. */
  lemma OneCutIsExact(msgs: seq<Msg>, max: int, cuts: nat)
    requires Total(msgs) > max && Victim(msgs) >= 0 && cuts > 0
    requires |msgs[Victim(msgs)].content| - (Total(msgs) - max + |SUFFIX|) >= MIN_KEEP
    ensures Clipped(msgs, max, cuts) == CutAt(msgs, max, Victim(msgs))
    ensures Total(Clipped(msgs, max, cuts)) == max
  {
    var v := Victim(msgs);
    var next := CutAt(msgs, max, v);
    SumUpdate(Runes, msgs, v, next[v]);
  }

  // ---------------------------------------------------------------- the shape of the output

  /** now is the original text, the bare suffix, or a proper original prefix of at least 80 runes
      followed by the suffix. */
  predicate Shape(original: string, now: string) {
    || now == original
    || now == SUFFIX
    || (exists k :: 80 <= k < |original| && now == original[..k] + SUFFIX)
  }

  ghost predicate ClipOf(original: seq<Msg>, ms: seq<Msg>, max: int) {
    && |ms| == |original|
    && AnyUser(ms) == AnyUser(original)
    && (forall i :: 0 <= i < |ms| ==> ms[i].role == original[i].role && Shape(original[i].content, ms[i].content))
    && (forall i :: 0 <= i < |ms| && !Eligible(original[i], AnyUser(original)) ==> ms[i] == original[i])
    && (Total(ms) > max ==>
          forall i :: 0 <= i < |ms| && |ms[i].content| > |SUFFIX| + MIN_KEEP ==> ms[i] == original[i])
  }

  lemma CutIsShape(original: string, now: string, drop: int)
    requires drop >= 16 && Shape(original, now) && (|now| > |SUFFIX| + MIN_KEEP ==> now == original)
    ensures Shape(original, Cut(now, drop))
  {
    if |now| > |SUFFIX| + MIN_KEEP {
      var keep := if |now| - drop < MIN_KEEP then MIN_KEEP else |now| - drop;
      assert Cut(now, drop) == original[..keep] + SUFFIX;
    }
  }

  /** A cut either drops the message to 95 runes or fewer, or makes the total fit. */
  lemma LongCutFits(ms: seq<Msg>, max: int, v: nat)
    requires v < |ms| && Total(ms) > max
    ensures |CutAt(ms, max, v)[v].content| > |SUFFIX| + MIN_KEEP ==> Total(CutAt(ms, max, v)) <= max
  {
    SumUpdate(Runes, ms, v, CutAt(ms, max, v)[v]);
  }

  lemma CutKeepsShape(original: seq<Msg>, ms: seq<Msg>, max: int)
    requires ClipOf(original, ms, max) && Total(ms) > max && Victim(ms) >= 0
    ensures ClipOf(original, CutAt(ms, max, Victim(ms)), max)
  {
    hide Victim, AnyUser, Total, Shape, Cut, Settled, Floor, CutsLeft;
    var v := Victim(ms);
    VictimIsEligible(ms, max);
    LongCutFits(ms, max, v);
    CutIsShape(original[v].content, ms[v].content, Total(ms) - max + |SUFFIX|);
    hide Eligible;
    var next := CutAt(ms, max, v);
    assert forall i :: 0 <= i < |ms| && i != v ==> next[i] == ms[i];
  }

  lemma VictimIsEligible(ms: seq<Msg>, max: int)
    requires Total(ms) > max && Victim(ms) >= 0
    ensures Eligible(ms[Victim(ms)], AnyUser(ms)) && AnyUser(CutAt(ms, max, Victim(ms))) == AnyUser(ms)
  {
    VictimIsLongest(ms);
    CutProgress(ms, max);
    hide Victim, AnyUser, Total, Settled, Floor, CutsLeft, CutAt;
  }

  lemma {:induction false} ClippedShape(original: seq<Msg>, ms: seq<Msg>, max: int, cuts: nat)
    requires ClipOf(original, ms, max)
    ensures ClipOf(original, Clipped(ms, max, cuts), max)
    decreases cuts
  {
    hide ClipOf, Total, Victim, CutAt;
    if cuts > 0 && Total(ms) > max && Victim(ms) >= 0 {
      CutKeepsShape(original, ms, max);
      ClippedShape(original, CutAt(ms, max, Victim(ms)), max, cuts - 1);
    }
  }

  /** Clipping keeps count, order and roles; when a user message has text no other message
      changes; and each text is cut at most once, always at the original text. */
  lemma ClipPreserves(msgs: seq<Msg>, max: int, cuts: nat)
    ensures var out := Clipped(msgs, max, cuts);
            && |out| == |msgs|
            && (forall i :: 0 <= i < |msgs| ==> out[i].role == msgs[i].role && Shape(msgs[i].content, out[i].content))
            && (AnyUser(msgs) ==> forall i :: 0 <= i < |msgs| && !IsUser(msgs[i]) ==> out[i] == msgs[i])
            && (Total(msgs) <= max ==> out == msgs)
  {
    ClippedShape(msgs, msgs, max, cuts);
  }

  // ---------------------------------------------------------------- normalisation

  datatype ChatBody = ChatBody(message: string, messages: seq<Msg>)

  datatype ChatError = BadRole(role: string) | MissingMessage | NoContent | TooManyMessages | TooLong

  datatype Result = Ok(msgs: seq<Msg>) | Err(error: ChatError)

  function Cleaned(m: Msg): Msg {
    Msg(Lower(Trim(m.role)), Trim(m.content))
  }

  predicate Blank(m: Msg) {
    Cleaned(m).role == "" || Cleaned(m).content == ""
  }

  predicate KnownRole(role: string) {
    role == "system" || role == "user" || role == "assistant"
  }

  predicate Refused(m: Msg) {
    !Blank(m) && !KnownRole(Cleaned(m).role)
  }

  predicate RolesKnown(ms: seq<Msg>) {
    forall m :: m in ms ==> !Refused(m)
  }

  /** The non-blank messages, cleaned, in order. */
  function Kept(ms: seq<Msg>): seq<Msg> {
    if ms == [] then [] else
      var rest := Kept(ms[..|ms| - 1]);
      var m := ms[|ms| - 1];
      if Blank(m) then rest else rest + [Cleaned(m)]
  }

  /** The conversation a request asks for, before any limit. */
  function Requested(body: ChatBody): seq<Msg> {
    if |body.messages| > 0 then Kept(body.messages)
    else if Trim(body.message) == "" then []
    else [Msg("user", Trim(body.message))]
  }

  /** What is kept are the messages with a role and a text, at rising positions of the request, each
      with its role trimmed and in lower case and its text trimmed. */
  lemma KeptInOrder(ms: seq<Msg>) returns (at: seq<nat>)
    ensures |at| == |Kept(ms)|
    ensures forall i, j :: 0 <= i < j < |at| ==> at[i] < at[j]
    ensures forall k: nat :: k < |ms| ==> (k in at <==> Trim(ms[k].role) != "" && Trim(ms[k].content) != "")
    ensures forall i :: 0 <= i < |at| ==>
              && at[i] < |ms| && Kept(ms)[i].role == Lower(Trim(ms[at[i]].role))
              && Kept(ms)[i].content == Trim(ms[at[i]].content)
  {
    at := KeptPositions(ms);
    hide Trim, Lower, Kept, Blank;
    forall k: nat | k < |ms| ensures k in at <==> Trim(ms[k].role) != "" && Trim(ms[k].content) != "" {
      BlankMeans(ms[k]);
    }
  }

  lemma {:induction false} KeptPositions(ms: seq<Msg>) returns (at: seq<nat>)
    ensures |at| == |Kept(ms)|
    ensures forall i, j :: 0 <= i < j < |at| ==> at[i] < at[j]
    ensures forall k: nat :: k < |ms| ==> (k in at <==> !Blank(ms[k]))
    ensures forall i :: 0 <= i < |at| ==> at[i] < |ms| && Kept(ms)[i] == Cleaned(ms[at[i]])
  {
    hide Blank, Cleaned;
    at := [];
    if ms != [] {
      var n := |ms| - 1;
      var before := KeptPositions(ms[..n]);
      at := before + if Blank(ms[n]) then [] else [n];
      assert forall k: nat :: k < n ==> ms[..n][k] == ms[k];
    }
  }

  lemma BlankMeans(m: Msg)
    ensures Blank(m) <==> Trim(m.role) == "" || Trim(m.content) == ""
  {
    assert |Lower(Trim(m.role))| == |Trim(m.role)|;
  }

  /** The loop over the submitted messages: their cleaned form, or the first unknown role. */
  /** Roles are known if every message with a role and a text has one of the three, up to case and white
      space around it. */
  lemma RolesMean(ms: seq<Msg>)
    ensures RolesKnown(ms) <==>
            forall i :: 0 <= i < |ms| && Trim(ms[i].content) != "" ==>
              Lower(Trim(ms[i].role)) in {"", "system", "user", "assistant"}
  {
    hide Trim, Lower;
    if !RolesKnown(ms) {
      var m :| m in ms && Refused(m);
      var i :| 0 <= i < |ms| && ms[i] == m;
      LowerBlank(Trim(m.role));
    } else {
      forall i | 0 <= i < |ms| && Trim(ms[i].content) != ""
        ensures Lower(Trim(ms[i].role)) in {"", "system", "user", "assistant"}
      {
        assert ms[i] in ms && !Refused(ms[i]);
        LowerBlank(Trim(ms[i].role));
      }
    }
  }

  lemma LowerBlank(s: string)
    ensures Lower(s) == "" <==> s == ""
  {
  }

  method KeepMessages(ms: seq<Msg>) returns (out: seq<Msg>, bad: int)
    ensures -1 <= bad < |ms|
    ensures bad >= 0 ==>
              && Trim(ms[bad].content) != "" && Lower(Trim(ms[bad].role)) !in {"", "system", "user", "assistant"}
              && Refused(ms[bad]) && RolesKnown(ms[..bad])
    ensures bad < 0 ==> out == Kept(ms) && RolesKnown(ms)
    ensures bad < 0 ==> forall m :: m in out ==> m.role in {"system", "user", "assistant"} && m.content != ""
  {
    hide Trim, Lower;
    out, bad := [], -1;
    for i := 0 to |ms|
      invariant out == Kept(ms[..i])
      invariant RolesKnown(ms[..i])
      invariant forall m :: m in out ==> m.role in {"system", "user", "assistant"} && m.content != ""
    {
      assert ms[..i + 1][..i] == ms[..i];
      var role, content := Lower(Trim(ms[i].role)), Trim(ms[i].content);
      if role == "" || content == "" {
        continue;
      }
      if role != "system" && role != "user" && role != "assistant" {
        return out, i;
      }
      out := out + [Msg(role, content)];
    }
    assert ms[..|ms|] == ms;
  }

  /** A request is accepted exactly when every role is known, 1 to 32 messages remain and their
      floor fits; the accepted conversation is the clipped one and fits itself. */
  method NormalizeChatMessages(body: ChatBody) returns (r: Result)
    ensures r.Ok? <==>
            RolesKnown(body.messages) && 1 <= |Requested(body)| <= 32 && Floor(Requested(body)) <= 24000
    ensures r.Ok? ==>
              && r.msgs == Clipped(Requested(body), MAX_CONTENT_RUNES, MAX_CUTS)
              && Total(r.msgs) <= 24000
    ensures r.Err? ==>
              && (r.error.BadRole? <==> !RolesKnown(body.messages))
              && (r.error.BadRole? ==> exists i :: 0 <= i < |body.messages| && Refused(body.messages[i])
                                                   && RolesKnown(body.messages[..i]) && r.error.role == body.messages[i].role)
              && (r.error.TooManyMessages? ==> |Requested(body)| > 32)
              && (r.error.TooLong? ==> 1 <= |Requested(body)| <= 32)
              && (r.error.MissingMessage? <==> body.messages == [] && Requested(body) == [])
              && (r.error.NoContent? ==> Requested(body) == [])
    ensures body.messages == [] ==> (r.Err? && r.error.MissingMessage? <==> Trim(body.message) == "")
    ensures body.messages == [] && r.Ok? ==>
              |r.msgs| == 1 && r.msgs[0].role == "user" && Shape(Trim(body.message), r.msgs[0].content)
  {
    ClipPreserves(Requested(body), MAX_CONTENT_RUNES, MAX_CUTS);
    hide Trim, Lower, Clipped, Floor, Total, Shape, AnyUser, IsUser, Kept;
    var out: seq<Msg>;
    if |body.messages| > 0 {
      var bad;
      out, bad := KeepMessages(body.messages);
      if bad >= 0 {
        return Err(BadRole(body.messages[bad].role));
      }
    } else {
      var msg := Trim(body.message);
      if msg == "" {
        return Err(MissingMessage);
      }
      out := [Msg("user", msg)];
    }
    if |out| == 0 {
      return Err(NoContent);
    }
    if |out| > MAX_MESSAGES {
      return Err(TooManyMessages);
    }
    r := ClipToLimit(out);
  }

  /** The length check at the end of normalisation. */
  method ClipToLimit(msgs: seq<Msg>) returns (r: Result)
    requires |msgs| <= MAX_MESSAGES
    ensures r.Ok? <==> Floor(msgs) <= MAX_CONTENT_RUNES
    ensures r.Ok? ==> r.msgs == Clipped(msgs, MAX_CONTENT_RUNES, MAX_CUTS) && Total(r.msgs) <= MAX_CONTENT_RUNES
    ensures r.Err? ==> r.error == TooLong
  {
    ClipSuffices(msgs, MAX_CONTENT_RUNES);
    var out := msgs;
    var total := TotalRunes(out);
    if total > MAX_CONTENT_RUNES {
      out := Clip(out, MAX_CONTENT_RUNES);
      total := TotalRunes(out);
      if total > MAX_CONTENT_RUNES {
        return Err(TooLong);
      }
    }
    return Ok(out);
  }

  /** The excess in a system message cannot be cut while a user message has text. */
  lemma LongSystemMessageStays(text: string)
    requires |text| > MAX_CONTENT_RUNES
    ensures var out := Clipped([Msg("system", text), Msg("user", "hi")], MAX_CONTENT_RUNES, MAX_CUTS);
            out[0].content == text && Total(out) > MAX_CONTENT_RUNES
  {
    var msgs := [Msg("system", text), Msg("user", "hi")];
    assert IsUser(msgs[1]) && !IsUser(msgs[0]);
    ClipPreserves(msgs, MAX_CONTENT_RUNES, MAX_CUTS);
    SumTerm(Runes, Clipped(msgs, MAX_CONTENT_RUNES, MAX_CUTS), 0);
    hide Clipped;
  }
}
