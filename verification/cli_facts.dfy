/**
 * Properties of the command-line helpers: the coloured capitals read back as
 * the original text, how the `.gitignore` reader treats CRLF and LF files,
 * where the `.env` check finds its key, how the directory summary adds up
 * and what an ignore entry can affect, and that the router depends only on
 * the trimmed, lower-cased line.
 */
module CliFacts {
  import opened Common
  import opened Text
  import opened Cli

  // ---------------------------------------------------------------------
  // Coloured capitals

  lemma {:induction false} ColorizeAppend(a: string, b: string)
    ensures ColorizeChars(a + b) == ColorizeChars(a) + ColorizeChars(b)
  {
    if |a| > 0 {
      assert (a + b)[0] == a[0];
      assert (a + b)[1..] == a[1..] + b;
      ColorizeAppend(a[1..], b);
    } else {
      assert a + b == b;
    }
  }

  /** Text without capitals is printed as it is, followed by the reset code. */
  lemma {:induction false} ColorizePlain(s: string)
    requires forall k :: 0 <= k < |s| ==> !IsCapital(s[k])
    ensures ColorizeCapitals(s) == s + Reset
  {
    PlainChars(s);
  }

  lemma {:induction false} PlainChars(s: string)
    requires forall k :: 0 <= k < |s| ==> !IsCapital(s[k])
    ensures ColorizeChars(s) == s
  {
    if |s| > 0 {
      assert forall k :: 0 <= k < |s[1..]| ==> s[1..][k] == s[k + 1];
      PlainChars(s[1..]);
      assert s == [s[0]] + s[1..];
    }
  }

  /** An escape sequence, ESC up to and including the first `m`, is invisible. */
  lemma VisibleSkipsCode(a: string, rest: string)
    requires |a| > 0 && a[0] == Esc && 'm' !in a
    ensures Visible(a + ['m'] + rest) == Visible(rest)
  {
    IndexOfPrefix(a, 'm', rest);
    var t := a + ['m'] + rest;
    assert t[0] == Esc;
    assert t[|a| + 1..] == rest;
  }

  lemma VisibleRed(rest: string)
    ensures Visible(Red + rest) == Visible(rest)
  {
    var a := [Esc] + "[31";
    assert Red == a + ['m'];
    VisibleSkipsCode(a, rest);
  }

  lemma VisibleGrey(rest: string)
    ensures Visible(Grey + rest) == Visible(rest)
  {
    var a := [Esc] + "[90";
    assert Grey == a + ['m'];
    VisibleSkipsCode(a, rest);
  }

  lemma VisibleReset()
    ensures Visible(Reset) == ""
  {
    var a := [Esc] + "[0";
    assert Reset == a + ['m'] + "";
    VisibleSkipsCode(a, "");
  }

  lemma VisiblePlain(c: char, t: string)
    requires c != Esc
    ensures Visible([c] + t) == [c] + Visible(t)
  {
    assert ([c] + t)[0] == c;
    assert ([c] + t)[1..] == t;
  }

  lemma VisibleCapital(c: char, t: string)
    requires c != Esc
    ensures Visible(Red + [c] + Grey + t) == [c] + Visible(t)
  {
    var x := [c] + (Grey + t);
    assert Red + [c] + Grey + t == Red + x;
    VisibleRed(x);
    VisiblePlain(c, Grey + t);
    VisibleGrey(t);
  }

  lemma VisibleChar(c: char, t: string)
    requires c != Esc
    ensures Visible(ColorizeChar(c) + t) == [c] + Visible(t)
  {
    if IsCapital(c) {
      VisibleCapital(c, t);
    } else {
      VisiblePlain(c, t);
    }
  }

  lemma ColorizeCons(s: string)
    requires |s| > 0
    ensures ColorizeChars(s) == ColorizeChar(s[0]) + ColorizeChars(s[1..])
  {
  }

  lemma ColorizeConsAppend(s: string, t: string)
    requires |s| > 0
    ensures ColorizeChars(s) + t == ColorizeChar(s[0]) + (ColorizeChars(s[1..]) + t)
  {
    ColorizeCons(s);
    AppendAssoc(ColorizeChar(s[0]), ColorizeChars(s[1..]), t);
  }

  lemma {:induction false} VisibleColorized(s: string, t: string)
    requires Esc !in s
    ensures Visible(ColorizeChars(s) + t) == s + Visible(t)
  {
    if |s| > 0 {
      var tail := s[1..];
      assert Esc !in tail by {
        assert forall x :: x in tail ==> x in s;
      }
      VisibleColorized(tail, t);
      ColorizeConsAppend(s, t);
      VisibleChar(s[0], ColorizeChars(tail) + t);
      ConsSplit(s, Visible(t));
    } else {
      assert ColorizeChars(s) + t == t;
      assert s + Visible(t) == Visible(t);
    }
  }

  /** Stripping the colour codes gives back the text that was coloured. */
  lemma ColorizeRoundTrip(s: string)
    requires Esc !in s
    ensures Visible(ColorizeCapitals(s)) == s
  {
    VisibleColorized(s, Reset);
    VisibleReset();
  }

  // ---------------------------------------------------------------------
  // .gitignore

  predicate LineFree(lines: seq<string>) {
    forall i :: 0 <= i < |lines| ==> '\n' !in lines[i] && '\r' !in lines[i]
  }

  /** The text of a file whose lines end in CR LF, the last without one. */
  function CrlfText(lines: seq<string>): string {
    if |lines| == 0 then ""
    else if |lines| == 1 then lines[0]
    else lines[0] + "\r\n" + CrlfText(lines[1..])
  }

  lemma {:induction false} CrlfDropsLf(lines: seq<string>)
    requires |lines| >= 1 && LineFree(lines)
    ensures Filter(CrlfText(lines), '\n') == Join(lines, '\r')
  {
    if |lines| == 1 {
      FilterAbsent(lines[0], '\n');
    } else {
      var tail := lines[1..];
      assert LineFree(tail) by {
        forall i | 0 <= i < |tail| ensures '\n' !in tail[i] && '\r' !in tail[i] {
          assert tail[i] == lines[i + 1];
        }
      }
      CrlfDropsLf(tail);
      var rest := CrlfText(tail);
      assert CrlfText(lines) == lines[0] + ("\r\n" + rest);
      FilterAppend(lines[0], "\r\n" + rest, '\n');
      FilterAbsent(lines[0], '\n');
      FilterAppend("\r\n", rest, '\n');
      assert Filter("\r\n", '\n') == "\r";
    }
  }

  /** The nonempty lines of `lines`, as a set. */
  function NonEmpty(lines: seq<string>): set<string> {
    set i | 0 <= i < |lines| && lines[i] != "" :: lines[i]
  }

  lemma ParseByPieces(data: string, pieces: seq<string>)
    requires Split(RemoveAll(data, '\n'), '\r') == pieces
    ensures ParseGitIgnore(data) == NonEmpty(pieces)
  {
  }

  /** A CRLF file yields exactly its nonempty lines. */
  lemma CrlfEntries(lines: seq<string>)
    requires |lines| >= 1 && LineFree(lines)
    ensures ParseGitIgnore(CrlfText(lines)) == NonEmpty(lines)
  {
    var text := CrlfText(lines);
    FlattenSplitIsFilter(text, '\n');
    CrlfDropsLf(lines);
    assert RemoveAll(text, '\n') == Join(lines, '\r');
    SplitJoin(lines, '\r');
    ParseByPieces(text, lines);
  }

  lemma {:induction false} FlattenAvoids(lines: seq<string>, c: char)
    requires forall i :: 0 <= i < |lines| ==> c !in lines[i]
    ensures c !in Flatten(lines)
  {
    if |lines| > 0 {
      assert forall i :: 0 <= i < |lines[1..]| ==> lines[1..][i] == lines[i + 1];
      FlattenAvoids(lines[1..], c);
    }
  }

  /**
   * A file whose lines end in LF alone loses every line break and becomes a
   * single entry: all its lines run together.
   */
  lemma LfEntries(lines: seq<string>)
    requires |lines| >= 1 && LineFree(lines)
    ensures ParseGitIgnore(Join(lines, '\n')) ==
              (if Flatten(lines) == "" then {} else {Flatten(lines)})
  {
    var whole := Flatten(lines);
    LfJoined(lines);
    FlattenAvoids(lines, '\r');
    IndexOfAbsent(whole, '\r');
    SplitNone(whole, '\r');
    ParseByPieces(Join(lines, '\n'), [whole]);
    NonEmptySingle(whole);
  }

  lemma NonEmptySingle(w: string)
    ensures NonEmpty([w]) == (if w == "" then {} else {w})
  {
    var one := [w];
    assert one[0] == w;
    forall x | x in NonEmpty(one) ensures x == w && w != "" {
      var i :| 0 <= i < |one| && one[i] != "" && one[i] == x;
    }
    if w != "" {
      assert w in NonEmpty(one);
    }
  }

  lemma LfJoined(lines: seq<string>)
    requires |lines| >= 1 && LineFree(lines)
    ensures RemoveAll(Join(lines, '\n'), '\n') == Flatten(lines)
  {
    SplitJoin(lines, '\n');
  }

  // ---------------------------------------------------------------------
  // .env

  /** `j` is where a line of `s` begins. */
  predicate LineStart(s: string, j: nat) {
    j == 0 || (0 < j <= |s| && s[j - 1] == '\n')
  }

  /** Some line of `s` begins with the key. */
  predicate KeyAtLineStart(s: string) {
    exists j: nat :: j <= |s| && LineStart(s, j) && StartsWith(s[j..], KeyName)
  }

  lemma FindCons(head: string, more: seq<string>)
    ensures FindKeyLine([head] + more).Some? <==> StartsWith(head, KeyName) || FindKeyLine(more).Some?
  {
    var lines := [head] + more;
    assert lines[0] == head;
    assert lines[1..] == more;
  }

  /** A line ended by a break begins with the key exactly when the text from there does. */
  lemma KeyBeforeBreak(s: string, k: nat)
    requires k < |s| && s[k] == '\n'
    ensures StartsWith(s[..k], KeyName) <==> StartsWith(s, KeyName)
  {
    assert '\n' !in KeyName;
  }

  /** A text without line breaks has one line start, its beginning. */
  lemma OneLine(s: string)
    requires '\n' !in s
    ensures KeyAtLineStart(s) <==> StartsWith(s, KeyName)
  {
    assert s[0..] == s;
    forall j: nat | 0 < j <= |s| ensures !LineStart(s, j) {
      assert s[j - 1] in s;
    }
  }

  /** The line starts after the first break are those of the rest of the text. */
  lemma LaterLines(s: string, k: nat)
    requires k < |s| && s[k] == '\n' && '\n' !in s[..k]
    ensures KeyAtLineStart(s) <==> StartsWith(s, KeyName) || KeyAtLineStart(s[k + 1..])
  {
    var rest := s[k + 1..];
    assert s[0..] == s;
    if KeyAtLineStart(rest) {
      var j: nat :| j <= |rest| && LineStart(rest, j) && StartsWith(rest[j..], KeyName);
      assert s[k + 1 + j..] == rest[j..];
      assert LineStart(s, k + 1 + j);
    }
    if KeyAtLineStart(s) {
      var j: nat :| j <= |s| && LineStart(s, j) && StartsWith(s[j..], KeyName);
      if j > k {
        assert s[j..] == rest[j - k - 1..];
        assert LineStart(rest, j - k - 1);
      } else if j > 0 {
        assert s[j - 1] in s[..k];
      }
    }
  }

  lemma FoundInOneLine(s: string)
    requires IndexOf(s, '\n') == |s|
    ensures FindKeyLine(Split(s, '\n')).Some? <==> KeyAtLineStart(s)
  {
    SplitNone(s, '\n');
    FindCons(s, []);
    assert [s] + [] == [s];
    OneLine(s);
  }

  lemma FoundAfterBreak(s: string)
    requires IndexOf(s, '\n') < |s|
    requires var rest := s[IndexOf(s, '\n') + 1..];
             FindKeyLine(Split(rest, '\n')).Some? <==> KeyAtLineStart(rest)
    ensures FindKeyLine(Split(s, '\n')).Some? <==> KeyAtLineStart(s)
  {
    var k := IndexOf(s, '\n');
    var rest := s[k + 1..];
    SplitStep(s, '\n');
    FindCons(s[..k], Split(rest, '\n'));
    KeyBeforeBreak(s, k);
    LaterLines(s, k);
  }

  lemma {:induction false} FoundIffLineStart(s: string)
    ensures FindKeyLine(Split(s, '\n')).Some? <==> KeyAtLineStart(s)
    decreases |s|
  {
    var k := IndexOf(s, '\n');
    if k == |s| {
      FoundInOneLine(s);
    } else {
      FoundIffLineStart(s[k + 1..]);
      FoundAfterBreak(s);
    }
  }

  /** The key is reported as present exactly when some line of `.env` begins with it. */
  lemma KeyReported(content: string)
    ensures CheckEnv(Ok(content)) == KeyExists <==> KeyAtLineStart(content)
    ensures CheckEnv(Ok(content)) != EnvFileMissing
  {
    FoundIffLineStart(content);
  }

  // ---------------------------------------------------------------------
  // Directory summary

  /** What `readdir` can list: nonempty names without a separator. */
  predicate ValidEntry(e: Entry)
    decreases e, 0
  {
    e.name != "" && '/' !in e.name && (e.Dir? ==> ValidEntries(e.children))
  }

  predicate ValidEntries(es: seq<Entry>)
    decreases es, 1
  {
    |es| > 0 ==> ValidEntry(es[0]) && ValidEntries(es[1..])
  }

  /** Every count of `a` at most the matching count of `b`. */
  predicate Le(a: Summary, b: Summary) {
    a.files <= b.files && a.folders <= b.folders && a.totalBytes <= b.totalBytes
  }

  lemma AddZero(x: Summary)
    ensures Add(Zero, x) == x && Add(x, Zero) == x
  {
  }

  lemma AddAssoc(x: Summary, y: Summary, z: Summary)
    ensures Add(Add(x, y), z) == Add(x, Add(y, z))
  {
  }

  lemma AddComm(x: Summary, y: Summary)
    ensures Add(x, y) == Add(y, x)
  {
  }

  lemma TallyCons(dir: string, e: Entry, b: seq<Entry>, ignore: set<string>)
    ensures Tally(dir, [e] + b, ignore) == Add(TallyEntry(dir, e, ignore), Tally(dir, b, ignore))
  {
    assert ([e] + b)[0] == e;
    assert ([e] + b)[1..] == b;
  }

  /** Entries listed one after another add up. */
  lemma {:induction false} TallyAppend(dir: string, a: seq<Entry>, b: seq<Entry>, ignore: set<string>)
    ensures Tally(dir, a + b, ignore) == Add(Tally(dir, a, ignore), Tally(dir, b, ignore))
  {
    if |a| > 0 {
      var e, rest := a[0], a[1..];
      ConsSplit(a, b);
      TallyCons(dir, e, rest + b, ignore);
      TallyCons(dir, e, rest, ignore);
      TallyAppend(dir, rest, b, ignore);
      AddAssoc(TallyEntry(dir, e, ignore), Tally(dir, rest, ignore), Tally(dir, b, ignore));
    } else {
      assert a + b == b;
      AddZero(Tally(dir, b, ignore));
    }
  }

  /** The order `readdir` lists the entries in does not change the summary. */
  lemma TallyOrderFree(dir: string, a: seq<Entry>, b: seq<Entry>, ignore: set<string>)
    ensures Tally(dir, a + b, ignore) == Tally(dir, b + a, ignore)
  {
    TallyAppend(dir, a, b, ignore);
    TallyAppend(dir, b, a, ignore);
    AddComm(Tally(dir, a, ignore), Tally(dir, b, ignore));
  }

  lemma IgnoredNothing(dir: string, e: Entry, ignore: set<string>)
    requires RelPath(dir, e.name) in ignore
    ensures TallyEntry(dir, e, ignore) == Zero
  {
  }

  lemma IgnoredHead(dir: string, e: Entry, b: seq<Entry>, ignore: set<string>)
    requires RelPath(dir, e.name) in ignore
    ensures Tally(dir, [e] + b, ignore) == Tally(dir, b, ignore)
  {
    TallyCons(dir, e, b, ignore);
    IgnoredNothing(dir, e, ignore);
    AddZero(Tally(dir, b, ignore));
  }

  /** An ignored entry contributes nothing, however deep its subtree. */
  lemma IgnoredEntrySkipped(dir: string, a: seq<Entry>, e: Entry, b: seq<Entry>, ignore: set<string>)
    requires RelPath(dir, e.name) in ignore
    ensures Tally(dir, a + [e] + b, ignore) == Tally(dir, a + b, ignore)
  {
    AppendAssoc(a, [e], b);
    TallyAppend(dir, a, [e] + b, ignore);
    IgnoredHead(dir, e, b, ignore);
    TallyAppend(dir, a, b, ignore);
  }

  /** Ignoring more never counts more. */
  lemma {:induction false} EntryMonotone(dir: string, e: Entry, small: set<string>, big: set<string>)
    requires small <= big
    ensures Le(TallyEntry(dir, e, big), TallyEntry(dir, e, small))
    decreases e, 0
  {
    var rel := RelPath(dir, e.name);
    if rel !in big && e.Dir? {
      TallyMonotone(rel, e.children, small, big);
    }
  }

  lemma {:induction false} TallyMonotone(dir: string, es: seq<Entry>, small: set<string>, big: set<string>)
    requires small <= big
    ensures Le(Tally(dir, es, big), Tally(dir, es, small))
    decreases es, 1
  {
    if |es| > 0 {
      EntryMonotone(dir, es[0], small, big);
      TallyMonotone(dir, es[1..], small, big);
    }
  }

  lemma RelPathNoSlashEnd(dir: string, name: string)
    requires name != "" && '/' !in name
    ensures var p := RelPath(dir, name); |p| > 0 && p[|p| - 1] != '/'
  {
    var p := RelPath(dir, name);
    assert p[|p| - 1] == name[|name| - 1];
    assert name[|name| - 1] in name;
  }

  /**
   * An ignore entry ending in `/`, the usual way to name a directory in a
   * `.gitignore`, never matches a relative path and so changes nothing.
   */
  lemma {:induction false} EntrySlashInert(dir: string, e: Entry, ignore: set<string>, p: string)
    requires ValidEntry(e)
    requires |p| > 0 && p[|p| - 1] == '/'
    ensures TallyEntry(dir, e, ignore + {p}) == TallyEntry(dir, e, ignore)
    decreases e, 0
  {
    var rel := RelPath(dir, e.name);
    RelPathNoSlashEnd(dir, e.name);
    assert rel != p;
    if rel !in ignore && e.Dir? {
      TallySlashInert(rel, e.children, ignore, p);
    }
  }

  lemma {:induction false} TallySlashInert(dir: string, es: seq<Entry>, ignore: set<string>, p: string)
    requires ValidEntries(es)
    requires |p| > 0 && p[|p| - 1] == '/'
    ensures Tally(dir, es, ignore + {p}) == Tally(dir, es, ignore)
    decreases es, 1
  {
    if |es| > 0 {
      EntrySlashInert(dir, es[0], ignore, p);
      TallySlashInert(dir, es[1..], ignore, p);
    }
  }

  /** Reference totals of a tree: every file, folder and byte in it. */
  function Whole(es: seq<Entry>): Summary
    decreases es, 1
  {
    if |es| == 0 then Zero else Add(WholeEntry(es[0]), Whole(es[1..]))
  }

  function WholeEntry(e: Entry): Summary
    decreases e, 0
  {
    match e
    case File(_, size) => Summary(1, 0, size)
    case Dir(_, children) => Add(Summary(0, 1, 0), Whole(children))
  }

  /** With nothing ignored the summary counts the whole tree, wherever it starts. */
  lemma {:induction false} EntryCountsAll(dir: string, e: Entry)
    ensures TallyEntry(dir, e, {}) == WholeEntry(e)
    decreases e, 0
  {
    if e.Dir? {
      TallyCountsAll(RelPath(dir, e.name), e.children);
    }
  }

  lemma {:induction false} TallyCountsAll(dir: string, es: seq<Entry>)
    ensures Tally(dir, es, {}) == Whole(es)
    decreases es, 1
  {
    if |es| > 0 {
      EntryCountsAll(dir, es[0]);
      TallyCountsAll(dir, es[1..]);
    }
  }

  /** So any ignore set leaves a summary within the whole tree's totals. */
  lemma SummaryWithinTree(dir: string, es: seq<Entry>, ignore: set<string>)
    ensures Le(Tally(dir, es, ignore), Whole(es))
  {
    TallyCountsAll(dir, es);
    TallyMonotone(dir, es, {}, ignore);
  }

  // ---------------------------------------------------------------------
  // The router

  /** Surrounding white space does not change the command. */
  lemma RouteTrimmed(line: string)
    ensures Route(Trim(line)) == Route(line)
  {
    TrimIdempotent(line);
  }

  lemma RoutePadded(a: string, v: string, b: string)
    requires AllSpace(a) && AllSpace(b)
    requires |v| > 0 && !IsJsSpace(v[0]) && !IsJsSpace(v[|v| - 1])
    ensures Route(a + v + b) == Route(v)
  {
    TrimPadded(a, v, b);
    TrimPadded("", v, "");
    assert "" + v + "" == v;
  }

  /** The router sees only the trimmed line, lower-cased: case does not matter. */
  lemma RouteIgnoresCase(x: string, y: string)
    requires AsciiLower(Trim(x)) == AsciiLower(Trim(y))
    ensures Route(x) == Route(y)
  {
    var a, b := Trim(x), Trim(y);
    if |a| > 0 {
      assert LowerChar(a[0]) == '/' <==> a[0] == '/';
      assert AsciiLower(a)[0] == LowerChar(a[0]);
      assert a[..1] == [a[0]];
    }
    if |b| > 0 {
      assert LowerChar(b[0]) == '/' <==> b[0] == '/';
      assert AsciiLower(b)[0] == LowerChar(b[0]);
      assert b[..1] == [b[0]];
    }
  }

  lemma RouteExample()
    ensures Route("  /Help\n") == Help
  {
    ExampleTrim();
    ExampleSelect();
  }

  lemma ExampleTrim()
    ensures Trim("  /Help\n") == "/Help"
  {
    TrimPadded("  ", "/Help", "\n");
    assert "  " + "/Help" + "\n" == "  /Help\n";
  }

  lemma ExampleSelect()
    ensures Select("/Help") == Help
  {
    var lowered := AsciiLower("/Help");
    assert lowered == "/help";
  }
}
