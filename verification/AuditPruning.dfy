/** What pruning the audit file keeps, and what the list shows before and after it. */
module AuditPruning {
  import opened Text
  import opened Options
  import opened AuditLog

  // ---------------------------------------------------------------- lines survive being rewritten

  /** A line that is read back as it was written. */
  predicate Storable(line: string) {
    Free(line, '\n') && WithoutCr(line) == line && Fits(line)
  }

  lemma RawHead(line: string, rest: string)
    requires Free(line, '\n')
    ensures RawLines(line + "\n" + rest) == [line] + RawLines(rest)
  {
    var file := line + "\n" + rest;
    var n := Find(file, '\n');
    assert file[|line|] == '\n';
    assert forall i :: 0 <= i < |line| ==> file[i] == line[i];
    assert n == |line|;
    assert file[..n] == line && file[n + 1..] == rest;
  }

  lemma {:induction false} WrittenIsRead(lines: seq<string>)
    requires forall i :: 0 <= i < |lines| ==> Free(lines[i], '\n')
    ensures RawLines(Written(lines)) == lines
  {
    hide Free;
    if lines != [] {
      WrittenIsRead(lines[1..]);
      RawHead(lines[0], Written(lines[1..]));
    }
  }

  lemma {:induction false} WrittenIsScanned(lines: seq<string>)
    requires forall i :: 0 <= i < |lines| ==> Storable(lines[i])
    ensures ScanLines(Written(lines)) == Some(lines)
  {
    WrittenIsRead(lines);
    hide RawLines, Written, Fits, WithoutCr;
    assert Stripped(lines) == lines;
  }

  lemma {:induction false} ByteLenAppend(a: string, b: string)
    ensures ByteLen(a + b) == ByteLen(a) + ByteLen(b)
    decreases |b|
  {
    hide Width;
    if b == "" {
      assert a + b == a;
    } else {
      var s := a + b;
      assert s[..|s| - 1] == a + b[..|b| - 1] && s[|s| - 1] == b[|b| - 1];
      ByteLenAppend(a, b[..|b| - 1]);
    }
  }

  /** t is a stretch of s. */
  ghost predicate Within(t: string, s: string) {
    exists a: string, b: string :: s == a + t + b
  }

  lemma WithinFits(t: string, s: string)
    requires Within(t, s)
    ensures Free(s, '\n') ==> Free(t, '\n')
    ensures Fits(s) ==> Fits(t)
  {
    var a: string, b: string :| s == a + t + b;
    ByteLenAppend(a + t, b);
    ByteLenAppend(a, t);
    forall i | 0 <= i < |t| ensures t[i] == s[|a| + i] {
    }
  }

  lemma {:induction false} TrimLeftEndsIt(s: string)
    ensures |TrimLeft(s)| <= |s| && TrimLeft(s) == s[|s| - |TrimLeft(s)|..]
  {
    if s != "" && IsSpace(s[0]) {
      TrimLeftEndsIt(s[1..]);
    }
  }

  lemma TrimWithin(s: string)
    ensures Within(Trim(s), s)
  {
    TrimLeftEndsIt(s);
    var left := TrimLeft(s);
    TrimRightEnds(left);
    hide TrimLeft, TrimRight;
    var trimmed := TrimRight(left);
    assert s == s[..|s| - |left|] + trimmed + left[|trimmed|..];
  }

  /** What a trimmed scanned line is stored as can be read again. */
  lemma TrimStorable(raw: string)
    requires Free(raw, '\n') && Fits(raw)
    ensures Storable(Trim(WithoutCr(raw)))
  {
    var line := WithoutCr(raw);
    assert Within(line, raw) by {
      assert raw == "" + line + raw[|line|..];
    }
    WithinFits(line, raw);
    TrimWithin(line);
    WithinFits(Trim(line), line);
    TrimIsTrimmed(line);
  }

  lemma {:induction false} RawLinesFree(file: string)
    ensures forall i :: 0 <= i < |RawLines(file)| ==> Free(RawLines(file)[i], '\n')
    decreases |file|
  {
    var n := Find(file, '\n');
    if n < |file| {
      RawLinesFree(file[n + 1..]);
      assert Free(file[..n], '\n');
    }
  }

  lemma {:induction false} KeptStorable(rd: Reading, cutoff: int, raw: seq<string>)
    requires forall i :: 0 <= i < |raw| ==> Free(raw[i], '\n') && Fits(raw[i])
    ensures forall i :: 0 <= i < |Kept(rd, cutoff, Stripped(raw))| ==> Storable(Kept(rd, cutoff, Stripped(raw))[i])
  {
    hide Fits, Free, Storable, WithinRetention, Trim, WithoutCr;
    if raw != [] {
      var n := |raw| - 1;
      assert Stripped(raw)[..n] == Stripped(raw[..n]);
      KeptStorable(rd, cutoff, raw[..n]);
      TrimStorable(raw[n]);
    }
  }

  /** The rewritten file scans to exactly the lines kept. */
  lemma PrunedReadsBack(rd: Reading, cutoff: int, text: string)
    requires ScanLines(text).Some?
    ensures var kept := Kept(rd, cutoff, ScanLines(text).value); ScanLines(Written(kept)) == Some(kept)
  {
    RawLinesFree(text);
    KeptStorable(rd, cutoff, RawLines(text));
    WrittenIsScanned(Kept(rd, cutoff, ScanLines(text).value));
  }

  // ---------------------------------------------------------------- keeping and showing

  lemma {:induction false} KeptConcat(rd: Reading, cutoff: int, a: seq<string>, b: seq<string>)
    ensures Kept(rd, cutoff, a + b) == Kept(rd, cutoff, a) + Kept(rd, cutoff, b)
    decreases |b|
  {
    hide KeptLine;
    if b == [] {
      assert a + b == a;
    } else {
      var all := a + b;
      assert all[..|all| - 1] == a + b[..|b| - 1] && all[|all| - 1] == b[|b| - 1];
      KeptConcat(rd, cutoff, a, b[..|b| - 1]);
    }
  }

  lemma {:induction false} ShownConcat(rd: Reading, cutoff: int, a: seq<string>, b: seq<string>)
    ensures Shown(rd, cutoff, a + b) == Shown(rd, cutoff, a) + Shown(rd, cutoff, b)
    decreases |b|
  {
    hide ShownLine;
    if b == [] {
      assert a + b == a;
    } else {
      var all := a + b;
      assert all[..|all| - 1] == a + b[..|b| - 1] && all[|all| - 1] == b[|b| - 1];
      ShownConcat(rd, cutoff, a, b[..|b| - 1]);
    }
  }

  /** A line kept is kept again by any later cutoff just when it would have been at once. */
  lemma KeptLineTwice(rd: Reading, cutoff: int, later: int, line: string)
    requires cutoff <= later
    ensures match KeptLine(rd, cutoff, line)
            case Some(text) => KeptLine(rd, later, text) == KeptLine(rd, later, line)
            case None => KeptLine(rd, later, line) == None
    ensures match KeptLine(rd, cutoff, line)
            case Some(text) => ShownLine(rd, cutoff, text) == ShownLine(rd, cutoff, line)
            case None => ShownLine(rd, cutoff, line) == None
  {
    TrimIdempotent(line);
    hide Trim;
  }

  lemma OneLine(rd: Reading, cutoff: int, line: string)
    ensures Kept(rd, cutoff, [line]) == OptionSeq(KeptLine(rd, cutoff, line))
    ensures Shown(rd, cutoff, [line]) == OptionSeq(ShownLine(rd, cutoff, line))
  {
    assert [line][..0] == [];
    hide KeptLine, ShownLine;
  }

  lemma {:induction false} KeptTwice(rd: Reading, cutoff: int, later: int, lines: seq<string>)
    requires cutoff <= later
    ensures Kept(rd, later, Kept(rd, cutoff, lines)) == Kept(rd, later, lines)
    ensures Shown(rd, cutoff, Kept(rd, cutoff, lines)) == Shown(rd, cutoff, lines)
  {
    if lines != [] {
      var front, last := lines[..|lines| - 1], lines[|lines| - 1];
      var kept, one := Kept(rd, cutoff, front), OptionSeq(KeptLine(rd, cutoff, last));
      KeptTwice(rd, cutoff, later, front);
      KeptConcat(rd, later, kept, one);
      ShownConcat(rd, cutoff, kept, one);
      KeptLineTwice(rd, cutoff, later, last);
      if one != [] {
        OneLine(rd, later, one[0]);
        OneLine(rd, cutoff, one[0]);
      }
      hide KeptLine, ShownLine;
    }
  }

  /** A record counts as recent if it has no time, one that cannot be read, or one not before the
      cutoff. */
  predicate Recent(rd: Reading, cutoff: int, r: AuditRecord) {
    Trim(r.ts) == "" || rd.parseTime(Trim(r.ts)).None? || rd.parseTime(Trim(r.ts)).value >= cutoff
  }

  /** A line worth keeping: not blank, and unreadable or recent. */
  predicate Keeps(rd: Reading, cutoff: int, text: string) {
    text != "" && (rd.parse(text).None? || Recent(rd, cutoff, rd.parse(text).value))
  }

  lemma KeptIsTrimmed(rd: Reading, cutoff: int, line: string)
    ensures KeptLine(rd, cutoff, line).Some? <==> Keeps(rd, cutoff, Trim(line))
    ensures KeptLine(rd, cutoff, line).Some? ==> KeptLine(rd, cutoff, line).value == Trim(line)
  {
    hide Trim;
  }

  /** A line worth showing: a recent record of a kind that is shown. */
  predicate Shows(rd: Reading, cutoff: int, text: string) {
    text != "" && rd.parse(text).Some? && Recent(rd, cutoff, rd.parse(text).value) && rd.shown(rd.parse(text).value)
  }

  lemma ShownIsParsed(rd: Reading, cutoff: int, line: string)
    ensures ShownLine(rd, cutoff, line).Some? <==> Shows(rd, cutoff, Trim(line))
    ensures ShownLine(rd, cutoff, line).Some? ==> Some(ShownLine(rd, cutoff, line).value) == rd.parse(Trim(line))
  {
    hide Trim;
  }

  /** The list is the records of exactly the lines worth showing, in order. */
  lemma {:induction false} ShownInOrder(rd: Reading, cutoff: int, lines: seq<string>) returns (at: seq<nat>)
    ensures |at| == |Shown(rd, cutoff, lines)|
    ensures forall i :: 0 <= i < |at| ==> at[i] < |lines| && Some(Shown(rd, cutoff, lines)[i]) == rd.parse(Trim(lines[at[i]]))
    ensures forall i, j :: 0 <= i < j < |at| ==> at[i] < at[j]
    ensures forall k: nat :: k < |lines| ==> (k in at <==> Shows(rd, cutoff, Trim(lines[k])))
  {
    hide Trim, ShownLine, Shows;
    at := [];
    if lines != [] {
      var n := |lines| - 1;
      var before := ShownInOrder(rd, cutoff, lines[..n]);
      ShownIsParsed(rd, cutoff, lines[n]);
      at := before + if ShownLine(rd, cutoff, lines[n]).Some? then [n] else [];
      forall k: nat | k < |lines| ensures k in at <==> Shows(rd, cutoff, Trim(lines[k])) {
        if k < n {
          assert lines[..n][k] == lines[k];
        }
      }
    }
  }

  /** Pruning is an order-preserving filter: the lines kept are the trimmed lines at some rising
      positions of the file. */
  lemma {:induction false} KeptInOrder(rd: Reading, cutoff: int, lines: seq<string>) returns (at: seq<nat>)
    ensures |at| == |Kept(rd, cutoff, lines)|
    ensures forall i :: 0 <= i < |at| ==> at[i] < |lines| && Kept(rd, cutoff, lines)[i] == Trim(lines[at[i]])
    ensures forall i, j :: 0 <= i < j < |at| ==> at[i] < at[j]
    ensures forall k: nat :: k < |lines| ==> (k in at <==> Keeps(rd, cutoff, Trim(lines[k])))
  {
    hide Trim, KeptLine, Keeps;
    at := [];
    if lines != [] {
      var n := |lines| - 1;
      var before := KeptInOrder(rd, cutoff, lines[..n]);
      KeptIsTrimmed(rd, cutoff, lines[n]);
      at := before + if KeptLine(rd, cutoff, lines[n]).Some? then [n] else [];
      forall k: nat | k < |lines| ensures k in at <==> Keeps(rd, cutoff, Trim(lines[k])) {
        if k < n {
          assert lines[..n][k] == lines[k];
        }
      }
    }
  }

  // ---------------------------------------------------------------- the file

  /** Pruning again changes nothing, and pruning by a later cutoff does not depend on an earlier
      pruning. */
  lemma PruneTwice(rd: Reading, cutoff: int, later: int, file: Option<string>)
    requires cutoff <= later
    ensures Pruned(rd, later, Pruned(rd, cutoff, file)) == Pruned(rd, later, file)
  {
    hide Kept, Written, ScanLines;
    EmptyFile();
    if file.Some? && ScanLines(file.value).Some? {
      var lines := ScanLines(file.value).value;
      var kept := Kept(rd, cutoff, lines);
      PrunedReadsBack(rd, cutoff, file.value);
      KeptTwice(rd, cutoff, later, lines);
      WrittenEmpty(kept);
      NothingKept(rd, later);
    }
  }

  lemma WrittenEmpty(lines: seq<string>)
    ensures Written(lines) == "" <==> lines == []
  {
  }

  lemma NothingKept(rd: Reading, cutoff: int)
    ensures Kept(rd, cutoff, []) == [] && Shown(rd, cutoff, []) == []
  {
  }

  lemma TailKeepsEnd(x: seq<string>, y: seq<string>, limit: int) returns (more: seq<string>)
    requires |y| <= Limit(limit)
    ensures Tail(x + y, limit) == more + y
  {
    var all := x + y;
    more := if |all| <= Limit(limit) then x else x[|all| - Limit(limit)..];
  }

  /** What the limit leaves of the lines kept still holds all that is kept of the lines the limit
      leaves. */
  lemma TailOfKept(rd: Reading, cutoff: int, lines: seq<string>, limit: int) returns (more: seq<string>)
    ensures Tail(Kept(rd, cutoff, lines), limit) == more + Kept(rd, cutoff, Tail(lines, limit))
  {
    hide Kept;
    var tail := Tail(lines, limit);
    var front := lines[..|lines| - |tail|];
    assert lines == front + tail;
    KeptConcat(rd, cutoff, front, tail);
    more := TailKeepsEnd(Kept(rd, cutoff, front), Kept(rd, cutoff, tail), limit);
  }

  predicate EndsWith<T(==)>(long: seq<T>, short: seq<T>) {
    |short| <= |long| && long[|long| - |short|..] == short
  }

  lemma ShownSurvives(rd: Reading, cutoff: int, limit: int, lines: seq<string>)
    ensures EndsWith(Shown(rd, cutoff, Tail(Kept(rd, cutoff, lines), limit)), Shown(rd, cutoff, Tail(lines, limit)))
  {
    hide Kept, Shown, Tail;
    var more := TailOfKept(rd, cutoff, lines, limit);
    var kept := Kept(rd, cutoff, Tail(lines, limit));
    ShownConcat(rd, cutoff, more, kept);
    KeptTwice(rd, cutoff, cutoff, Tail(lines, limit));
  }

  /** Pruning never takes a record off the list: what was shown is still the end of what is shown,
      and an unreadable file stays as it was. */
  lemma DisplaySurvivesPruning(rd: Reading, cutoff: int, limit: int, file: Option<string>)
    ensures var before, after := Display(rd, cutoff, limit, file), Display(rd, cutoff, limit, Pruned(rd, cutoff, file));
            before.Some? == after.Some? && (before.Some? ==> EndsWith(after.value, before.value))
  {
    NothingKept(rd, cutoff);
    NothingTailed(limit);
    hide Kept, Shown, Tail, ScanLines, Written;
    if file.Some? && ScanLines(file.value).Some? {
      PrunedReadsBack(rd, cutoff, file.value);
      ShownSurvives(rd, cutoff, limit, ScanLines(file.value).value);
    }
  }

  lemma NothingTailed(limit: int)
    ensures Tail([], limit) == []
  {
  }
}
