/**
 The key=value configuration files of the updater: the parser (`parse_kv`) and the line editor
 (`_set_kv_value`, `_set_worker_count`).
 */
module KeyValueFile {
  import opened Wrappers

  type Settings = map<string, string>

  // ----- Lines -----

  /** The characters at which Python ends a line. */
  predicate IsBreak(c: char) {
    c in {'\n', '\r', '\U{000b}', '\U{000c}', '\U{001c}', '\U{001d}', '\U{001e}', '\U{0085}', '\U{2028}', '\U{2029}'}
  }

  predicate Unbroken(s: string) {
    forall i :: 0 <= i < |s| ==> !IsBreak(s[i])
  }

  /** The length of the first line. */
  function LineEnd(text: string): (n: nat)
    ensures n <= |text| && Unbroken(text[..n]) && (n < |text| ==> IsBreak(text[n]))
  {
    if text == "" || IsBreak(text[0]) then 0
    else
      var n := 1 + LineEnd(text[1..]);
      assert text[..n] == [text[0]] + text[1..][..n - 1];
      n
  }

  /** Carriage return and line feed together end one line. */
  function BreakLength(text: string, n: nat): nat
    requires n < |text|
  {
    if n + 1 < |text| && text[n] == '\r' && text[n + 1] == '\n' then 2 else 1
  }

  function SplitLines(text: string): (lines: seq<string>)
    ensures forall i :: 0 <= i < |lines| ==> Unbroken(lines[i])
  {
    if text == "" then []
    else
      var n := LineEnd(text);
      if n == |text| then [text[..n]]
      else [text[..n]] + SplitLines(text[n + BreakLength(text, n)..])
  }

  function JoinLines(lines: seq<string>): string {
    if lines == [] then "" else lines[0] + "\n" + JoinLines(lines[1..])
  }

  predicate AllUnbroken(lines: seq<string>) {
    forall i :: 0 <= i < |lines| ==> Unbroken(lines[i])
  }

  lemma {:induction false} LineEndOfLine(line: string, rest: string)
    requires Unbroken(line)
    ensures LineEnd(line + "\n" + rest) == |line|
  {
    if line != "" {
      assert (line + "\n" + rest)[1..] == line[1..] + "\n" + rest;
      LineEndOfLine(line[1..], rest);
    }
  }

  /** Writing lines and reading them back. */
  lemma {:induction false} SplitJoin(lines: seq<string>)
    requires AllUnbroken(lines)
    ensures SplitLines(JoinLines(lines)) == lines
  {
    if lines != [] {
      var text, rest := JoinLines(lines), JoinLines(lines[1..]);
      LineEndOfLine(lines[0], rest);
      assert text[..|lines[0]|] == lines[0];
      assert text[|lines[0]| + 1..] == rest;
      SplitJoin(lines[1..]);
    }
  }

  // ----- What splitting does -----

  /** The line boundaries by code point: LF, VT, FF, CR, FS, GS, RS, NEL, LS and PS. */
  predicate EndsLine(c: char) {
    c as int in {10, 11, 12, 13, 28, 29, 30, 0x85, 0x2028, 0x2029}
  }

  lemma {:induction false} LineEndAt(line: string, rest: string)
    requires (forall i :: 0 <= i < |line| ==> !EndsLine(line[i])) && (rest == "" || EndsLine(rest[0]))
    ensures LineEnd(line + rest) == |line|
  {
    if line != "" {
      assert (line + rest)[1..] == line[1..] + rest;
      LineEndAt(line[1..], rest);
    } else {
      assert line + rest == rest;
    }
  }

  /** What is left at the end is a line unless it is empty. */
  lemma SplitsLast(line: string)
    requires forall i :: 0 <= i < |line| ==> !EndsLine(line[i])
    ensures SplitLines(line) == if line == "" then [] else [line]
  {
    LineEndAt(line, "");
    assert line + "" == line;
  }

  /** A line runs up to the next boundary. */
  lemma SplitsAtBoundary(line: string, c: char, rest: string)
    requires EndsLine(c) && forall i :: 0 <= i < |line| ==> !EndsLine(line[i])
    requires !(c == '\r' && rest != "" && rest[0] == '\n')
    ensures SplitLines(line + ([c] + rest)) == [line] + SplitLines(rest)
  {
    LineEndAt(line, [c] + rest);
    SplitOff(line + ([c] + rest), line, 1, rest);
  }

  /** Carriage return and line feed together are one boundary. */
  lemma SplitsAtCrLf(line: string, rest: string)
    requires forall i :: 0 <= i < |line| ==> !EndsLine(line[i])
    ensures SplitLines(line + (['\r', '\n'] + rest)) == [line] + SplitLines(rest)
  {
    LineEndAt(line, ['\r', '\n'] + rest);
    SplitOff(line + (['\r', '\n'] + rest), line, 2, rest);
  }

  lemma SplitOff(text: string, line: string, width: nat, rest: string)
    requires LineEnd(text) == |line| < |text| && BreakLength(text, |line|) == width
    requires text[..|line|] == line && text[|line| + width..] == rest
    ensures SplitLines(text) == [line] + SplitLines(rest)
  {
  }

  // ----- Parsing -----

  function IndexOf(s: string, c: char): (n: nat)
    ensures n <= |s| && c !in s[..n] && (n < |s| ==> s[n] == c)
  {
    if s == "" || s[0] == c then 0
    else
      var n := 1 + IndexOf(s[1..], c);
      assert s[..n] == [s[0]] + s[1..][..n - 1];
      n
  }

  predicate IsComment(line: string) {
    line != "" && line[0] == '#'
  }

  /** The key and value of a line, unless it is a comment or has no equals sign. */
  function Entry(line: string): Option<(string, string)> {
    var n := IndexOf(line, '=');
    if n == |line| || IsComment(line) then None else Some((line[..n], line[n + 1..]))
  }

  function Applied(settings: Settings, line: string): Settings {
    match Entry(line)
    case None => settings
    case Some((key, value)) => settings[key := value]
  }

  function ParseLines(lines: seq<string>): Settings {
    if lines == [] then map[] else Applied(ParseLines(lines[..|lines| - 1]), lines[|lines| - 1])
  }

  function Parse(text: string): Settings {
    ParseLines(SplitLines(text))
  }

  /** The characters Python strips. */
  predicate IsSpace(c: char) {
    IsBreak(c) || c in {' ', '\t', '\U{001f}', '\U{00a0}', '\U{1680}', '\U{202f}', '\U{205f}', '\U{3000}'}
    || '\U{2000}' <= c <= '\U{200a}'
  }

  function StripLeft(s: string): string {
    if s != "" && IsSpace(s[0]) then StripLeft(s[1..]) else s
  }

  function StripRight(s: string): string {
    if s != "" && IsSpace(s[|s| - 1]) then StripRight(s[..|s| - 1]) else s
  }

  function Strip(s: string): string {
    StripRight(StripLeft(s))
  }

  /** A stripped setting, empty when there is none. */
  function Setting(settings: Settings, key: string): string {
    if key in settings then Strip(settings[key]) else ""
  }

  method ParseKv(text: string) returns (settings: Settings)
    ensures settings == Parse(text)
  {
    var lines := SplitLines(text);
    settings := map[];
    for i := 0 to |lines|
      invariant settings == ParseLines(lines[..i])
    {
      assert lines[..i + 1][..i] == lines[..i];
      var line := lines[i];
      var n := IndexOf(line, '=');
      if line != "" && !IsComment(line) && n < |line| {
        settings := settings[line[..n] := line[n + 1..]];
      }
    }
    assert lines[..|lines|] == lines;
  }

  /** Comments and lines without an equals sign say nothing; of the others the last one for a key counts. */
  lemma LineMeaning(lines: seq<string>, key: string, value: string, other: string)
    requires '=' !in key && (key == "" || key[0] != '#')
    ensures ParseLines(lines + [key + "=" + value]) == ParseLines(lines)[key := value]
    ensures ParseLines(lines + ["#" + other]) == ParseLines(lines)
    ensures '=' !in other ==> ParseLines(lines + [other]) == ParseLines(lines)
  {
    EntryOfWritten(key, value);
    assert ("#" + other)[0] == '#';
    if '=' !in other {
      assert IndexOf(other, '=') == |other|;
    }
  }

  // ----- Editing -----

  predicate StartsWith(line: string, prefix: string) {
    prefix <= line
  }

  /** The lines before the end of the file, and whether the entry has been written. */
  function Scanned(lines: seq<string>, key: string, value: string): (seq<string>, bool) {
    if lines == [] then ([], false)
    else
      var (out, done) := Scanned(lines[..|lines| - 1], key, value);
      var line := lines[|lines| - 1];
      if !StartsWith(line, key + "=") then (out + [line], done)
      else if done then (out, true)
      else (out + [key + "=" + value], true)
  }

  function EditLines(lines: seq<string>, key: string, value: string): seq<string> {
    var (out, done) := Scanned(lines, key, value);
    if done then out else out + [key + "=" + value]
  }

  function Edit(text: string, key: string, value: string): string {
    JoinLines(EditLines(SplitLines(text), key, value))
  }

  method SetKvValue(text: string, key: string, value: string) returns (r: string)
    ensures r == Edit(text, key, value)
  {
    var original := SplitLines(text);
    var prefix := key + "=";
    var lines: seq<string> := [];
    var replaced := false;
    for i := 0 to |original|
      invariant (lines, replaced) == Scanned(original[..i], key, value)
    {
      assert original[..i + 1][..i] == original[..i];
      if StartsWith(original[i], prefix) {
        if !replaced {
          lines := lines + [prefix + value];
          replaced := true;
        }
        continue;
      }
      lines := lines + [original[i]];
    }
    assert original[..|original|] == original;
    if !replaced {
      lines := lines + [prefix + value];
    }
    r := JoinLines(lines);
  }

  // ----- Reading back what was written -----

  /** What can be written as one line and read back as that key and value. */
  predicate Writable(key: string, value: string) {
    '=' !in key && !IsComment(key) && Unbroken(key) && Unbroken(value)
  }

  lemma {:induction false} IndexOfIs(s: string, c: char, n: nat)
    requires n < |s| && s[n] == c && c !in s[..n]
    ensures IndexOf(s, c) == n
  {
    if n > 0 {
      assert s[0] == s[..n][0] && s[1..][..n - 1] == s[..n][1..];
      IndexOfIs(s[1..], c, n - 1);
    }
  }

  lemma EntryOfWritten(key: string, value: string)
    requires '=' !in key && !IsComment(key)
    ensures Entry(key + "=" + value) == Some((key, value))
  {
    var line := key + "=" + value;
    assert line[..|key|] == key && line[|key| + 1..] == value;
    IndexOfIs(line, '=', |key|);
  }

  lemma ParseSnoc(lines: seq<string>, line: string)
    ensures ParseLines(lines + [line]) == Applied(ParseLines(lines), line)
  {
  }

  lemma OwnLine(settings: Settings, line: string, key: string)
    requires '=' !in key && !IsComment(key) && StartsWith(line, key + "=")
    ensures Applied(settings, line) == settings[key := line[|key| + 1..]]
  {
    assert line == key + "=" + line[|key| + 1..];
    EntryOfWritten(key, line[|key| + 1..]);
  }

  lemma OtherLine(settings: Settings, line: string, key: string, value: string)
    requires !StartsWith(line, key + "=")
    ensures Applied(settings[key := value], line) == Applied(settings, line)[key := value]
    ensures key in Applied(settings, line) <==> key in settings
  {
  }

  lemma {:induction false} ScannedParses(lines: seq<string>, key: string, value: string)
    requires '=' !in key && !IsComment(key)
    ensures var (out, done) := Scanned(lines, key, value);
            if done then ParseLines(out) == ParseLines(lines)[key := value]
            else ParseLines(out) == ParseLines(lines) && key !in ParseLines(lines)
  {
    if lines != [] {
      var init, line := lines[..|lines| - 1], lines[|lines| - 1];
      ScannedParses(init, key, value);
      var out := Scanned(init, key, value).0;
      if StartsWith(line, key + "=") {
        OwnLine(ParseLines(init), line, key);
        EntryOfWritten(key, value);
        ParseSnoc(out, key + "=" + value);
      } else {
        OtherLine(ParseLines(init), line, key, value);
        ParseSnoc(out, line);
      }
    }
  }

  lemma EditedParses(lines: seq<string>, key: string, value: string)
    requires '=' !in key && !IsComment(key)
    ensures ParseLines(EditLines(lines, key, value)) == ParseLines(lines)[key := value]
  {
    ScannedParses(lines, key, value);
    EntryOfWritten(key, value);
    ParseSnoc(Scanned(lines, key, value).0, key + "=" + value);
  }

  lemma {:induction false} ScannedIsUnbroken(lines: seq<string>, key: string, value: string)
    requires AllUnbroken(lines) && Unbroken(key) && Unbroken(value)
    ensures AllUnbroken(Scanned(lines, key, value).0)
  {
    if lines != [] {
      ScannedIsUnbroken(lines[..|lines| - 1], key, value);
    }
  }

  /** Keys and values that can come out of the parser at all. */
  lemma {:induction false} ParsedIsWritable(lines: seq<string>, key: string)
    requires AllUnbroken(lines) && key in ParseLines(lines)
    ensures Writable(key, ParseLines(lines)[key])
  {
    var init, line := lines[..|lines| - 1], lines[|lines| - 1];
    if Entry(line).Some? && Entry(line).value.0 == key {
      assert Unbroken(line);
      assert key != "" ==> key[0] == line[0];
    } else {
      ParsedIsWritable(init, key);
    }
  }

  /**
   The editor against the parser: the text reads back with exactly that one setting changed if and
   only if the entry fits on a line of its own.
   */
  lemma SetThenParse(text: string, key: string, value: string)
    ensures Parse(Edit(text, key, value)) == Parse(text)[key := value] <==> Writable(key, value)
  {
    var lines := EditLines(SplitLines(text), key, value);
    if Writable(key, value) {
      ScannedIsUnbroken(SplitLines(text), key, value);
      SplitJoin(lines);
      EditedParses(SplitLines(text), key, value);
    } else if Parse(Edit(text, key, value)) == Parse(text)[key := value] {
      ParsedIsWritable(SplitLines(Edit(text, key, value)), key);
    }
  }

  /** The lines that do not set the key, in order. */
  function Others(lines: seq<string>, key: string): seq<string> {
    if lines == [] then []
    else Others(lines[..|lines| - 1], key) + if key + "=" <= lines[|lines| - 1] then [] else [lines[|lines| - 1]]
  }

  lemma {:induction false} ScannedBefore(lines: seq<string>, key: string, value: string)
    requires forall i :: 0 <= i < |lines| ==> !(key + "=" <= lines[i])
    ensures Scanned(lines, key, value) == (lines, false)
  {
    if lines != [] {
      var init, line := lines[..|lines| - 1], lines[|lines| - 1];
      ScannedBefore(init, key, value);
      ScanSnoc(init, line, key, value);
      assert init + [line] == lines;
    }
  }

  lemma {:induction false} ScannedAfter(before: seq<string>, own: string, after: seq<string>, key: string, value: string)
    requires (forall i :: 0 <= i < |before| ==> !(key + "=" <= before[i])) && key + "=" <= own
    ensures Scanned(before + [own] + after, key, value) == (before + [key + "=" + value] + Others(after, key), true)
  {
    var head := before + [key + "=" + value];
    if after == [] {
      ScannedBefore(before, key, value);
      ScanSnoc(before, own, key, value);
      assert before + [own] + after == before + [own];
      assert head + Others(after, key) == head;
    } else {
      var init, line := after[..|after| - 1], after[|after| - 1];
      ScannedAfter(before, own, init, key, value);
      ScanSnoc(before + [own] + init, line, key, value);
      assert before + [own] + after == before + [own] + init + [line];
      assert head + (Others(init, key) + [line]) == head + Others(init, key) + [line] && Others(init, key) + [] == Others(init, key);
    }
  }

  /** The entry takes the place of the first line for the key, later ones go, and every other line stays where it is. */
  lemma EditReplacesFirst(before: seq<string>, own: string, after: seq<string>, key: string, value: string)
    requires (forall i :: 0 <= i < |before| ==> !(key + "=" <= before[i])) && key + "=" <= own
    ensures EditLines(before + [own] + after, key, value) == before + [key + "=" + value] + Others(after, key)
  {
    ScannedAfter(before, own, after, key, value);
  }

  /** Without such a line the entry is added at the end. */
  lemma EditAppends(lines: seq<string>, key: string, value: string)
    requires forall i :: 0 <= i < |lines| ==> !(key + "=" <= lines[i])
    ensures EditLines(lines, key, value) == lines + [key + "=" + value]
  {
    ScannedBefore(lines, key, value);
  }

  lemma ScanSnoc(lines: seq<string>, line: string, key: string, value: string)
    ensures var (out, done) := Scanned(lines, key, value);
            Scanned(lines + [line], key, value) ==
            if !StartsWith(line, key + "=") then (out + [line], done)
            else if done then (out, true)
            else (out + [key + "=" + value], true)
  {
  }

  lemma {:induction false} ScannedTwice(lines: seq<string>, key: string, first: string, second: string)
    ensures Scanned(lines, key, first).1 == Scanned(lines, key, second).1
    ensures Scanned(Scanned(lines, key, first).0, key, second) == Scanned(lines, key, second)
  {
    if lines != [] {
      var init, line := lines[..|lines| - 1], lines[|lines| - 1];
      ScannedTwice(init, key, first, second);
      ScanSnoc(Scanned(init, key, first).0, line, key, second);
      ScanSnoc(Scanned(init, key, first).0, key + "=" + first, key, second);
      assert StartsWith(key + "=" + first, key + "=");
    }
  }

  /** A later value takes the place of an earlier one: nothing is left of the first edit. */
  lemma SetTwice(text: string, key: string, first: string, second: string)
    requires Writable(key, first)
    ensures Edit(Edit(text, key, first), key, second) == Edit(text, key, second)
  {
    var lines := SplitLines(text);
    ScannedIsUnbroken(lines, key, first);
    SplitJoin(EditLines(lines, key, first));
    ScannedTwice(lines, key, first, second);
    ScanSnoc(Scanned(lines, key, first).0, key + "=" + first, key, second);
    assert StartsWith(key + "=" + first, key + "=");
  }
}
