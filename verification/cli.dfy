/**
 * The pure helpers of the command-line front end: the header's coloured
 * capitals and red rule, the `.gitignore` reader, the `.env` check, the
 * recursive directory summary, and the router that turns a typed line into
 * a command.
 *
 * File contents and the terminal width are inputs; a read that failed is an
 * `Err`.
 */
module Cli {
  import opened Common
  import Text
  import Fs = Workspace

  // ---------------------------------------------------------------------
  // ANSI colours

  const Esc: char := 27 as char
  const Red: string := [Esc] + "[31m"
  const Grey: string := [Esc] + "[90m"
  const Reset: string := [Esc] + "[0m"

  /** A character that `/[A-Z]/` matches and `toUpperCase` leaves alone. */
  predicate IsCapital(c: char) {
    'A' <= c <= 'Z'
  }

  function CountCapitals(s: string): (n: nat)
    ensures n <= |s|
  {
    if |s| == 0 then 0 else (if IsCapital(s[0]) then 1 else 0) + CountCapitals(s[1..])
  }

  function ColorizeChar(c: char): string {
    if IsCapital(c) then Red + [c] + Grey else [c]
  }

  /** Every capital wrapped in red, with grey after it; the rest unchanged. */
  function ColorizeChars(s: string): (r: string)
    ensures |r| == |s| + 10 * CountCapitals(s)
    ensures |s| == 1 && IsCapital(s[0]) ==> r == Red + s + Grey
    ensures |s| == 1 && !IsCapital(s[0]) ==> r == s
  {
    if |s| == 0 then "" else ColorizeChar(s[0]) + ColorizeChars(s[1..])
  }

  /** `colorizeCapitals(str)`. */
  function ColorizeCapitals(s: string): (r: string)
    ensures |r| == |s| + 10 * CountCapitals(s) + |Reset|
    ensures Text.EndsWith(r, Reset)
  {
    var body := ColorizeChars(s);
    assert (body + Reset)[|body|..] == Reset;
    body + Reset
  }

  /**
   * The text a terminal shows: every escape sequence, from ESC up to and
   * including the next `m`, dropped.
   */
  function Visible(t: string): string
    decreases |t|
  {
    if |t| == 0 then ""
    else if t[0] == Esc then
      var k := Text.IndexOf(t, 'm');
      if k == |t| then "" else Visible(t[k + 1..])
    else [t[0]] + Visible(t[1..])
  }

  // ---------------------------------------------------------------------
  // The red rule

  const FallbackWidth: nat := 50

  /** `getRedLine()`: `columns` is `process.stdout.columns`, missing off a terminal. */
  function RedLine(columns: Option<nat>): (r: string)
    ensures var w := if columns.Some? && columns.value != 0 then columns.value else FallbackWidth;
            |r| == |Red| + w + |Reset|
            && Text.StartsWith(r, Red) && Text.EndsWith(r, Reset)
            && forall k :: |Red| <= k < |Red| + w ==> r[k] == '═'
  {
    var width := match columns
                 case Some(c) => if c != 0 then c else FallbackWidth
                 case None => FallbackWidth;
    var rule := Text.Repeat('═', width);
    var r := Red + rule + Reset;
    assert r[..|Red|] == Red;
    assert r[|r| - |Reset|..] == Reset;
    assert forall k :: |Red| <= k < |Red| + width ==> r[k] == rule[k - |Red|];
    r
  }

  // ---------------------------------------------------------------------
  // .gitignore

  /**
   * The ignore set built from the file's text: every `\n` removed, the rest
   * split at `\r`, and the empty pieces dropped.
   */
  function ParseGitIgnore(data: string): (r: set<string>)
    ensures forall p :: p in r ==> p != "" && '\n' !in p && '\r' !in p
  {
    var pieces := Text.Split(Text.RemoveAll(data, '\n'), '\r');
    assert forall i :: 0 <= i < |pieces| ==> '\n' !in pieces[i] by {
      Text.SplitPiecesAvoid(Text.RemoveAll(data, '\n'), '\r', '\n');
    }
    set i | 0 <= i < |pieces| && pieces[i] != "" :: pieces[i]
  }

  /** `readGitIgnore()`: a file that cannot be read ignores nothing. */
  function ReadGitIgnore(file: Result<string, Fs.FsError>): (r: set<string>)
    ensures file.Err? ==> r == {}
    ensures file.Ok? ==> r == ParseGitIgnore(file.value)
  {
    match file
    case Ok(data) => ParseGitIgnore(data)
    case Err(_) => {}
  }

  // ---------------------------------------------------------------------
  // .env

  const KeyName := "OPENAI_API_KEY"

  datatype EnvReport = KeyExists | KeyMissing | EnvFileMissing

  /** `envVariables.find(line => line.startsWith('OPENAI_API_KEY'))`. */
  function FindKeyLine(lines: seq<string>): (r: Option<string>)
    ensures r.Some? <==> exists i :: 0 <= i < |lines| && Text.StartsWith(lines[i], KeyName)
    ensures r.Some? ==> Text.StartsWith(r.value, KeyName)
  {
    if |lines| == 0 then None
    else if Text.StartsWith(lines[0], KeyName) then Some(lines[0])
    else
      var r := FindKeyLine(lines[1..]);
      assert forall i :: 1 <= i < |lines| ==> lines[i] == lines[1..][i - 1];
      r
  }

  /** `checkEnvVariable()` on the outcome of reading `.env`. */
  function CheckEnv(file: Result<string, Fs.FsError>): (r: EnvReport)
    ensures r == EnvFileMissing <==> file.Err?
  {
    match file
    case Err(_) => EnvFileMissing
    case Ok(content) =>
      if FindKeyLine(Text.Split(content, '\n')).Some? then KeyExists else KeyMissing
  }

  /** The text `checkEnvVariable` resolves with. */
  function EnvText(r: EnvReport): string {
    match r
    case KeyExists => Red + KeyName + " exists"
    case KeyMissing => Grey + KeyName + " missing"
    case EnvFileMissing => ".env file missing"
  }

  // ---------------------------------------------------------------------
  // Directory summary

  /** A directory entry as `readdir` with file types and `stat` see it. */
  datatype Entry = File(name: string, size: nat) | Dir(name: string, children: seq<Entry>)

  datatype Summary = Summary(files: nat, folders: nat, totalBytes: nat)

  const Zero := Summary(0, 0, 0)

  function Add(a: Summary, b: Summary): Summary {
    Summary(a.files + b.files, a.folders + b.folders, a.totalBytes + b.totalBytes)
  }

  /** `path.relative(process.cwd(), path.join(dir, name))`, with `dir` given relative to the cwd. */
  function RelPath(dir: string, name: string): string {
    if dir == "" then name else dir + "/" + name
  }

  /**
   * What `summarizeDirectory` adds to the summary for one entry: nothing if
   * its relative path is in the ignore set, else one file and its size, or
   * one folder and everything below it.
   */
  function TallyEntry(dir: string, e: Entry, ignore: set<string>): (r: Summary)
    decreases e, 0
  {
    var rel := RelPath(dir, e.name);
    if rel in ignore then Zero
    else
      match e
      case File(_, size) => Summary(1, 0, size)
      case Dir(_, children) => Add(Summary(0, 1, 0), Tally(rel, children, ignore))
  }

  /** `summarizeDirectory(dir, gitIgnore, summary)` over the entries of `dir`, from a zero summary. */
  function Tally(dir: string, entries: seq<Entry>, ignore: set<string>): (r: Summary)
    decreases entries, 1
  {
    if |entries| == 0 then Zero
    else Add(TallyEntry(dir, entries[0], ignore), Tally(dir, entries[1..], ignore))
  }

  // ---------------------------------------------------------------------
  // The command router

  datatype Command = TextInput | VoiceInput | Help | Exit | Unknown | NotACommand

  /** The handler a trimmed line selects: a command starts with `/` and is matched lower-cased. */
  function Select(input: string): Command {
    if Text.StartsWith(input, "/") then
      var command := Text.AsciiLower(input);
      if command == "/text" then TextInput
      else if command == "/voice" then VoiceInput
      else if command == "/help" then Help
      else if command == "/exit" then Exit
      else Unknown
    else NotACommand
  }

  /** The `line` handler: what the line typed at the prompt selects once trimmed. */
  function Route(line: string): (c: Command)
    ensures c == NotACommand <==> !Text.StartsWith(Text.Trim(line), "/")
    ensures c == TextInput <==> Text.AsciiLower(Text.Trim(line)) == "/text"
    ensures c == VoiceInput <==> Text.AsciiLower(Text.Trim(line)) == "/voice"
    ensures c == Help <==> Text.AsciiLower(Text.Trim(line)) == "/help"
    ensures c == Exit <==> Text.AsciiLower(Text.Trim(line)) == "/exit"
  {
    var input := Text.Trim(line);
    assert |input| > 0 ==> Text.AsciiLower(input)[0] == Text.LowerChar(input[0]);
    Select(input)
  }
}
