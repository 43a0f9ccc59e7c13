/** The audit file: reading its tail, showing it and pruning it to the retention period.
    internal/audit_store.go, lines 101-186, 201-218, 232-296 and 333-356. */
module AuditLog {
  import opened Text
  import opened Options

  // ---------------------------------------------------------------- the file and its lines

  const MAX_LINE := 1048576
  const DEFAULT_LIMIT := 200

  /** The pieces before each newline, and the rest unless it is empty. */
  function RawLines(file: string): seq<string>
    decreases |file|
  {
    var n := Find(file, '\n');
    if n < |file| then [file[..n]] + RawLines(file[n + 1..])
    else if file == "" then []
    else [file]
  }

  /** A scanned line comes without its carriage return. */
  function WithoutCr(line: string): string {
    if line != "" && line[|line| - 1] == '\r' then line[..|line| - 1] else line
  }

  predicate Fits(raw: string) {
    ByteLen(raw) < MAX_LINE
  }

  function Stripped(raw: seq<string>): (r: seq<string>)
    ensures |r| == |raw|
  {
    seq(|raw|, i requires 0 <= i < |raw| => WithoutCr(raw[i]))
  }

  /** What a scanner with a buffer of MAX_LINE bytes makes of the file; None is its error. */
  function ScanLines(file: string): Option<seq<string>> {
    var raw := RawLines(file);
    if forall i :: 0 <= i < |raw| ==> Fits(raw[i]) then Some(Stripped(raw)) else None
  }

  /** Each line followed by a newline. */
  function Written(lines: seq<string>): string {
    if lines == [] then "" else lines[0] + "\n" + Written(lines[1..])
  }

  // ---------------------------------------------------------------- records

  datatype AuditRecord = AuditRecord(ts: string, action: string, ip: string, user: string, method_: string,
                                     path: string, status: int, durationMs: int, detail: string)

  /** The parts that are not modelled: JSON and time parsing, and the choice of what the list shows. */
  datatype Reading = Reading(parse: string -> Option<AuditRecord>, parseTime: string -> Option<int>, shown: AuditRecord -> bool)

  predicate WithinRetention(rd: Reading, r: AuditRecord, cutoff: int) {
    var t := rd.parseTime(Trim(r.ts));
    Trim(r.ts) == "" || t.None? || t.value >= cutoff
  }

  /** What pruning keeps of a line: nothing of a blank one, an unreadable one as it is. */
  function KeptLine(rd: Reading, cutoff: int, line: string): Option<string> {
    var text := Trim(line);
    if text == "" then None
    else match rd.parse(text)
      case None => Some(text)
      case Some(r) => if WithinRetention(rd, r, cutoff) then Some(text) else None
  }

  /** What the list shows of a line. */
  function ShownLine(rd: Reading, cutoff: int, line: string): Option<AuditRecord> {
    var text := Trim(line);
    if text == "" then None
    else match rd.parse(text)
      case None => None
      case Some(r) => if WithinRetention(rd, r, cutoff) && rd.shown(r) then Some(r) else None
  }

  function OptionSeq<T>(o: Option<T>): (r: seq<T>)
    ensures |r| <= 1
  {
    match o case None => [] case Some(x) => [x]
  }

  function Kept(rd: Reading, cutoff: int, lines: seq<string>): (r: seq<string>)
    ensures |r| <= |lines|
  {
    if lines == [] then []
    else Kept(rd, cutoff, lines[..|lines| - 1]) + OptionSeq(KeptLine(rd, cutoff, lines[|lines| - 1]))
  }

  function Shown(rd: Reading, cutoff: int, lines: seq<string>): seq<AuditRecord> {
    if lines == [] then []
    else Shown(rd, cutoff, lines[..|lines| - 1]) + OptionSeq(ShownLine(rd, cutoff, lines[|lines| - 1]))
  }

  function Limit(limit: int): nat {
    if limit <= 0 then DEFAULT_LIMIT else limit
  }

  function Tail(lines: seq<string>, limit: int): seq<string> {
    if |lines| <= Limit(limit) then lines else lines[|lines| - Limit(limit)..]
  }

  /** The list for a file that may be absent; None is an error. */
  function Display(rd: Reading, cutoff: int, limit: int, file: Option<string>): Option<seq<AuditRecord>> {
    match file
    case None => Some([])
    case Some(text) =>
      match ScanLines(text)
      case None => None
      case Some(lines) => Some(Shown(rd, cutoff, Tail(lines, limit)))
  }

  /** The file after pruning. */
  function Pruned(rd: Reading, cutoff: int, file: Option<string>): Option<string> {
    match file
    case None => None
    case Some(text) =>
      if text == "" then file
      else match ScanLines(text)
        case None => file
        case Some(lines) =>
          var kept := Kept(rd, cutoff, lines);
          if kept == [] then None else Some(Written(kept))
  }

  /** The lines are the file: written back they give it, with a last newline if that was missing; and
      only a carriage return at the end of a line is dropped. */
  lemma {:induction false} LinesAreTheFile(file: string)
    ensures Written(RawLines(file)) == file || (Written(RawLines(file)) == file + "\n" && file != "" && file[|file| - 1] != '\n')
    decreases |file|
  {
    hide RawLines, Written;
    var n := Find(file, '\n');
    FirstLine(file);
    if n < |file| {
      var rest := file[n + 1..];
      LinesAreTheFile(rest);
      WrittenCons(file[..n], RawLines(rest));
      assert file == file[..n] + "\n" + rest;
      assert rest != "" ==> rest[|rest| - 1] == file[|file| - 1];
      assert file[..n] + "\n" + (rest + "\n") == file + "\n";
    } else if file != "" {
      WrittenCons(file, []);
      assert [file] + [] == [file];
      WrittenNothing();
    } else {
      WrittenNothing();
    }
  }

  lemma {:induction false} FirstLine(file: string)
    ensures var n := Find(file, '\n');
            RawLines(file) == if n < |file| then [file[..n]] + RawLines(file[n + 1..]) else if file == "" then [] else [file]
  {
  }

  lemma WrittenNothing()
    ensures Written([]) == ""
  {
  }

  lemma WrittenCons(line: string, rest: seq<string>)
    ensures Written([line] + rest) == line + "\n" + Written(rest)
  {
    assert ([line] + rest)[1..] == rest;
  }

  lemma CarriageReturnGoes(line: string)
    ensures WithoutCr(line + "\r") == line
    ensures line == "" || line[|line| - 1] != '\r' ==> WithoutCr(line) == line
  {
  }

  lemma EmptyFile()
    ensures ScanLines("") == Some([])
  {
  }

  // ---------------------------------------------------------------- the loops

  /** Shifts the slice one place down and puts the line last. */
  method ShiftIn(ring: array<string>, line: string)
    requires ring.Length > 0
    modifies ring
    ensures ring[..] == old(ring[..])[1..] + [line]
  {
    var n := ring.Length;
    for k := 0 to n - 1
      invariant forall j :: 0 <= j < k ==> ring[j] == old(ring[j + 1])
      invariant forall j :: k <= j < n ==> ring[j] == old(ring[j])
    {
      ring[k] := ring[k + 1];
    }
    ring[n - 1] := line;
  }

  /** Some line has a MiB or more. */
  predicate TooLong(file: string) {
    exists i :: 0 <= i < |RawLines(file)| && ByteLen(RawLines(file)[i]) >= 1048576
  }

  method TailJsonLines(file: string, limit: int) returns (lines: Option<seq<string>>)
    ensures lines == match ScanLines(file) case None => None case Some(all) => Some(Tail(all, limit))
    ensures lines.None? <==> TooLong(file)
    ensures lines.Some? ==>
              var raw, max := RawLines(file), if limit <= 0 then 200 else limit;
              && |lines.value| == (if |raw| <= max then |raw| else max)
              && forall i :: 0 <= i < |lines.value| ==> lines.value[i] == WithoutCr(raw[|raw| - |lines.value| + i])
  {
    hide RawLines, ByteLen, WithoutCr;
    var max := if limit <= 0 then DEFAULT_LIMIT else limit;
    var raw := RawLines(file);
    var ring := new string[max];
    var size := 0;
    for i := 0 to |raw|
      invariant size == if i <= max then i else max
      invariant ring[..size] == Stripped(raw)[i - size..i]
      invariant forall j :: 0 <= j < i ==> Fits(raw[j])
    {
      if !Fits(raw[i]) {
        return None;
      }
      if size < max {
        ring[size] := WithoutCr(raw[i]);
        size := size + 1;
      } else {
        assert ring[..] == ring[..size];
        ShiftIn(ring, WithoutCr(raw[i]));
        assert ring[..] == ring[..size];
      }
    }
    assert Stripped(raw)[|raw| - size..|raw|] == Tail(Stripped(raw), limit);
    lines := Some(ring[..size]);
  }

  /** An absent file lists nothing; a line that is too long makes the list an error. */
  method ListFile(rd: Reading, cutoff: int, limit: int, file: Option<string>) returns (logs: Option<seq<AuditRecord>>)
    ensures logs == Display(rd, cutoff, limit, file)
    ensures file.None? ==> logs == Some([])
    ensures logs.None? <==> file.Some? && TooLong(file.value)
  {
    hide Trim, WithinRetention, ScanLines, Tail, TooLong;
    if file.None? {
      return Some([]);
    }
    var tail := TailJsonLines(file.value, limit);
    if tail.None? {
      return None;
    }
    var lines := tail.value;
    var out := [];
    for i := 0 to |lines|
      invariant out == Shown(rd, cutoff, lines[..i])
    {
      assert lines[..i + 1][..i] == lines[..i];
      var line := Trim(lines[i]);
      if line == "" {
        continue;
      }
      var r := rd.parse(line);
      if r.None? {
        continue;
      }
      if !WithinRetention(rd, r.value, cutoff) {
        continue;
      }
      if !rd.shown(r.value) {
        continue;
      }
      out := out + [r.value];
    }
    assert lines[..|lines|] == lines;
    logs := Some(out);
  }

  class AuditFile {
    var content: Option<string>

    /** Reports whether the file could be scanned. */
    method PruneToRetention(rd: Reading, cutoff: int) returns (ok: bool)
      modifies this
      ensures content == Pruned(rd, cutoff, old(content))
      ensures ok <==> old(content).None? || !TooLong(old(content).value)
      ensures !ok || old(content) in {None, Some("")} ==> content == old(content)
      ensures ok && old(content) !in {None, Some("")} ==>
                var kept := Kept(rd, cutoff, Stripped(RawLines(old(content).value)));
                content == if kept == [] then None else Some(Written(kept))
    {
      hide Trim, RawLines, WithinRetention, ByteLen, WithoutCr, Written;
      if content.None? {
        return true;
      }
      var text := content.value;
      if |text| == 0 {
        EmptyFile();
        return true;
      }
      var raw := RawLines(text);
      var kept: seq<string> := [];
      for i := 0 to |raw|
        invariant kept == Kept(rd, cutoff, Stripped(raw)[..i])
        invariant forall j :: 0 <= j < i ==> Fits(raw[j])
      {
        if !Fits(raw[i]) {
          return false;
        }
        assert Stripped(raw)[..i + 1][..i] == Stripped(raw)[..i];
        var line := Trim(WithoutCr(raw[i]));
        if line == "" {
          continue;
        }
        var r := rd.parse(line);
        if r.None? {
          kept := kept + [line];
          continue;
        }
        if WithinRetention(rd, r.value, cutoff) {
          kept := kept + [line];
        }
      }
      assert Stripped(raw)[..|raw|] == Stripped(raw);
      if |kept| == 0 {
        content := None;
        return true;
      }
      var out := WriteLines(kept);
      content := Some(out);
      return true;
    }
  }

  method WriteLines(lines: seq<string>) returns (out: string)
    ensures out == Written(lines)
  {
    out := "";
    for i := 0 to |lines|
      invariant out + Written(lines[i..]) == Written(lines)
    {
      assert out + (lines[i] + "\n" + Written(lines[i + 1..])) == out + (lines[i] + "\n") + Written(lines[i + 1..]);
      out := out + (lines[i] + "\n");
    }
  }
}
