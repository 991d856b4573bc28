/**
 * The JavaScript string operations the agent and its command line rely on,
 * over `string` = `seq<char>`: `split` with a one-character separator,
 * `join`, `startsWith`, `trim`, `toLowerCase` (ASCII letters) and `repeat`.
 */
module Text {
  import opened Common

  predicate StartsWith(s: string, prefix: string) {
    |prefix| <= |s| && s[..|prefix|] == prefix
  }

  predicate EndsWith(s: string, suffix: string) {
    |suffix| <= |s| && s[|s| - |suffix|..] == suffix
  }

  /** Position of the first `c` in `s`, or `|s|` when there is none. */
  function IndexOf(s: string, c: char): (k: nat)
    ensures k <= |s|
    ensures c !in s[..k]
    ensures k < |s| ==> s[k] == c
  {
    if |s| == 0 then 0
    else if s[0] == c then 0
    else
      var k := 1 + IndexOf(s[1..], c);
      assert s[..k] == [s[0]] + s[1..][..k - 1];
      k
  }

  /**
   * `s.split(sep)` for a one-character separator: the pieces between the
   * separators, in order; there is always at least one piece.
   */
  function Split(s: string, sep: char): (parts: seq<string>)
    ensures |parts| >= 1
    ensures forall i :: 0 <= i < |parts| ==> sep !in parts[i]
    decreases |s|
  {
    var k := IndexOf(s, sep);
    if k == |s| then [s]
    else [s[..k]] + Split(s[k + 1..], sep)
  }

  /** `parts.join(sep)` for a one-character separator. */
  function Join(parts: seq<string>, sep: char): string {
    if |parts| == 0 then ""
    else if |parts| == 1 then parts[0]
    else parts[0] + [sep] + Join(parts[1..], sep)
  }

  /** `parts.join('')`. */
  function Flatten(parts: seq<string>): string {
    if |parts| == 0 then "" else parts[0] + Flatten(parts[1..])
  }

  /** The characters of `s` other than `c`, in order. */
  function Filter(s: string, c: char): string {
    if |s| == 0 then ""
    else if s[0] == c then Filter(s[1..], c)
    else [s[0]] + Filter(s[1..], c)
  }

  /** `s.split(c).join('')`: every `c` removed. */
  function RemoveAll(s: string, c: char): (r: string)
    ensures c !in r
  {
    FlattenSplitIsFilter(s, c);
    FilterRemoves(s, c);
    Flatten(Split(s, c))
  }

  /** `String.prototype.repeat` of a one-character string. */
  function Repeat(c: char, n: nat): (r: string)
    ensures |r| == n
    ensures forall k :: 0 <= k < n ==> r[k] == c
  {
    if n == 0 then "" else [c] + Repeat(c, n - 1)
  }

  // ---------------------------------------------------------------------
  // Case and white space

  function LowerChar(c: char): char {
    if 'A' <= c <= 'Z' then (c as int + 32) as char else c
  }

  /** `toLowerCase` restricted to the ASCII letters. */
  function AsciiLower(s: string): (r: string)
    ensures |r| == |s|
    ensures forall k :: 0 <= k < |s| ==> r[k] == LowerChar(s[k])
  {
    if |s| == 0 then "" else [LowerChar(s[0])] + AsciiLower(s[1..])
  }

  /**
   * ECMAScript WhiteSpace and LineTerminator code points, the characters
   * `String.prototype.trim` removes.
   */
  predicate IsJsSpace(c: char) {
    || c == '\t' || c == '\n' || c == 11 as char || c == 12 as char || c == '\r'
    || c == ' ' || c == 0xA0 as char || c == 0x1680 as char
    || (0x2000 as char <= c <= 0x200A as char)
    || c == 0x2028 as char || c == 0x2029 as char || c == 0x202F as char
    || c == 0x205F as char || c == 0x3000 as char || c == 0xFEFF as char
  }

  predicate AllSpace(s: string) {
    forall k :: 0 <= k < |s| ==> IsJsSpace(s[k])
  }

  function TrimStart(s: string): (r: string)
    ensures |r| <= |s| && r == s[|s| - |r|..]
    ensures AllSpace(s[..|s| - |r|])
    ensures r == "" || !IsJsSpace(r[0])
  {
    if |s| > 0 && IsJsSpace(s[0]) then
      var r := TrimStart(s[1..]);
      var cut := s[..|s| - |r|];
      assert s[1..][|s| - 1 - |r|..] == s[|s| - |r|..];
      assert AllSpace(cut) by {
        forall k | 0 <= k < |cut| ensures IsJsSpace(cut[k]) {
          if k > 0 {
            assert cut[k] == s[1..][..|s| - 1 - |r|][k - 1];
          }
        }
      }
      r
    else s
  }

  function TrimEnd(s: string): (r: string)
    ensures |r| <= |s| && r == s[..|r|]
    ensures AllSpace(s[|r|..])
    ensures r == "" || !IsJsSpace(r[|r| - 1])
  {
    if |s| > 0 && IsJsSpace(s[|s| - 1]) then
      var r := TrimEnd(s[..|s| - 1]);
      var cut := s[|r|..];
      assert s[..|s| - 1][..|r|] == s[..|r|];
      assert AllSpace(cut) by {
        forall k | 0 <= k < |cut| ensures IsJsSpace(cut[k]) {
          if k < |cut| - 1 {
            assert cut[k] == s[..|s| - 1][|r|..][k];
          }
        }
      }
      r
    else s
  }

  /** The number of white-space characters `s` starts with. */
  function LeadingSpace(s: string): (n: nat)
    ensures n <= |s| && AllSpace(s[..n])
  {
    |s| - |TrimStart(s)|
  }

  /**
   * `s.trim()`: the slice of `s` after its leading white space, with no white
   * space at either end (`TrimPadded` says exactly what is cut).
   */
  function Trim(s: string): (r: string)
    ensures LeadingSpace(s) + |r| <= |s| && r == s[LeadingSpace(s)..LeadingSpace(s) + |r|]
    ensures r == "" || (!IsJsSpace(r[0]) && !IsJsSpace(r[|r| - 1]))
  {
    var t := TrimStart(s);
    var r := TrimEnd(t);
    assert r == s[|s| - |t|..][..|r|];
    r
  }

  // ---------------------------------------------------------------------
  // Lemmas

  /** The first separator is found at `j` when `j` holds one and nothing before it does. */
  lemma {:induction false} IndexOfAt(s: string, c: char, j: nat)
    requires j < |s| && s[j] == c && c !in s[..j]
    ensures IndexOf(s, c) == j
  {
    if j > 0 {
      assert s[0] in s[..j];
      assert s[1..][..j - 1] == s[1..j];
      assert forall x :: x in s[1..j] ==> x in s[..j];
      IndexOfAt(s[1..], c, j - 1);
    }
  }

  lemma IndexOfPrefix(a: string, c: char, b: string)
    requires c !in a
    ensures IndexOf(a + [c] + b, c) == |a|
  {
    var s := a + [c] + b;
    assert s[..|a|] == a;
    IndexOfAt(s, c, |a|);
  }

  lemma {:induction false} IndexOfAbsent(a: string, c: char)
    requires c !in a
    ensures IndexOf(a, c) == |a|
  {
    if |a| > 0 {
      assert forall x :: x in a[1..] ==> x in a;
      IndexOfAbsent(a[1..], c);
    }
  }

  /** Splitting and joining on the same separator gives the string back. */
  lemma {:induction false} JoinSplit(s: string, sep: char)
    ensures Join(Split(s, sep), sep) == s
    decreases |s|
  {
    var k := IndexOf(s, sep);
    if k < |s| {
      var rest := s[k + 1..];
      JoinSplit(rest, sep);
      SplitStep(s, sep);
      JoinCons(s[..k], Split(rest, sep), sep);
      SliceAround(s, k);
    }
  }

  lemma JoinCons(p: string, ps: seq<string>, sep: char)
    requires |ps| >= 1
    ensures Join([p] + ps, sep) == p + [sep] + Join(ps, sep)
  {
    assert ([p] + ps)[1..] == ps;
  }

  /** Splitting off a separator-free first piece. */
  lemma SplitCons(a: string, sep: char, b: string)
    requires sep !in a
    ensures Split(a + [sep] + b, sep) == [a] + Split(b, sep)
  {
    IndexOfPrefix(a, sep, b);
    var s := a + [sep] + b;
    assert s[..|a|] == a;
    assert s[|a| + 1..] == b;
  }

  /** A character absent from `s` is absent from every piece of it. */
  lemma {:induction false} SplitPiecesAvoid(s: string, sep: char, c: char)
    requires c !in s
    ensures forall i :: 0 <= i < |Split(s, sep)| ==> c !in Split(s, sep)[i]
    decreases |s|
  {
    var k := IndexOf(s, sep);
    if k < |s| {
      var rest := s[k + 1..];
      assert forall x :: x in rest ==> x in s;
      assert forall x :: x in s[..k] ==> x in s;
      SplitPiecesAvoid(rest, sep, c);
      SplitStep(s, sep);
      var parts := Split(s, sep);
      forall i | 0 <= i < |parts| ensures c !in parts[i] {
        if i > 0 {
          assert parts[i] == Split(rest, sep)[i - 1];
        }
      }
    }
  }

  /** Joining separator-free parts and splitting again gives the parts back. */
  lemma {:induction false} SplitJoin(parts: seq<string>, sep: char)
    requires |parts| >= 1
    requires forall i :: 0 <= i < |parts| ==> sep !in parts[i]
    ensures Split(Join(parts, sep), sep) == parts
  {
    if |parts| == 1 {
      IndexOfAbsent(parts[0], sep);
    } else {
      var tail := parts[1..];
      assert forall i :: 0 <= i < |tail| ==> sep !in tail[i] by {
        forall i | 0 <= i < |tail| ensures sep !in tail[i] {
          assert tail[i] == parts[i + 1];
        }
      }
      SplitCons(parts[0], sep, Join(tail, sep));
      SplitJoin(tail, sep);
      assert parts == [parts[0]] + tail;
    }
  }

  lemma {:induction false} FilterAppend(a: string, b: string, c: char)
    ensures Filter(a + b, c) == Filter(a, c) + Filter(b, c)
  {
    if |a| > 0 {
      assert (a + b)[1..] == a[1..] + b;
      FilterAppend(a[1..], b, c);
    } else {
      assert a + b == b;
    }
  }

  lemma {:induction false} FilterAbsent(a: string, c: char)
    requires c !in a
    ensures Filter(a, c) == a
  {
    if |a| > 0 {
      assert forall x :: x in a[1..] ==> x in a;
      FilterAbsent(a[1..], c);
    }
  }

  lemma {:induction false} FilterRemoves(s: string, c: char)
    ensures c !in Filter(s, c)
  {
    if |s| > 0 {
      FilterRemoves(s[1..], c);
    }
  }

  lemma FlattenCons(p: string, ps: seq<string>)
    ensures Flatten([p] + ps) == p + Flatten(ps)
  {
    assert ([p] + ps)[1..] == ps;
  }

  lemma FilterSkip(c: char, rest: string)
    ensures Filter([c] + rest, c) == Filter(rest, c)
  {
    assert ([c] + rest)[1..] == rest;
  }

  /** A split at the first separator: the piece before it, then the split of the rest. */
  lemma SplitStep(s: string, c: char)
    requires IndexOf(s, c) < |s|
    ensures Split(s, c) == [s[..IndexOf(s, c)]] + Split(s[IndexOf(s, c) + 1..], c)
  {
  }

  lemma SplitNone(s: string, c: char)
    requires IndexOf(s, c) == |s|
    ensures c !in s && Split(s, c) == [s]
  {
    assert s[..|s|] == s;
  }

  /** Filtering up to the first separator keeps the text before it. */
  lemma FilterStep(s: string, c: char)
    requires IndexOf(s, c) < |s|
    ensures Filter(s, c) == s[..IndexOf(s, c)] + Filter(s[IndexOf(s, c) + 1..], c)
  {
    var k := IndexOf(s, c);
    var head, rest := s[..k], s[k + 1..];
    SliceAround(s, k);
    FilterAppend(head, [c] + rest, c);
    FilterAbsent(head, c);
    FilterSkip(c, rest);
  }

  /** Joining the pieces of a split with nothing is the same as deleting the separator. */
  lemma {:induction false} FlattenSplitIsFilter(s: string, c: char)
    ensures Flatten(Split(s, c)) == Filter(s, c)
    decreases |s|
  {
    var k := IndexOf(s, c);
    if k == |s| {
      SplitNone(s, c);
      FlattenCons(s, []);
      FilterAbsent(s, c);
    } else {
      var rest := s[k + 1..];
      FlattenSplitIsFilter(rest, c);
      SplitStep(s, c);
      FlattenCons(s[..k], Split(rest, c));
      FilterStep(s, c);
    }
  }

  lemma {:induction false} TrimStartSkips(a: string, v: string)
    requires AllSpace(a)
    requires v == "" || !IsJsSpace(v[0])
    ensures TrimStart(a + v) == v
  {
    if |a| > 0 {
      assert (a + v)[1..] == a[1..] + v;
      TrimStartSkips(a[1..], v);
    } else {
      assert a + v == v;
    }
  }

  lemma {:induction false} TrimEndSkips(v: string, b: string)
    requires AllSpace(b)
    requires v == "" || !IsJsSpace(v[|v| - 1])
    ensures TrimEnd(v + b) == v
  {
    if |b| > 0 {
      assert (v + b)[..|v + b| - 1] == v + b[..|b| - 1];
      TrimEndSkips(v, b[..|b| - 1]);
    } else {
      assert v + b == v;
    }
  }

  /** Trimming strips exactly the surrounding white space of a padded string. */
  lemma TrimPadded(a: string, v: string, b: string)
    requires AllSpace(a) && AllSpace(b)
    requires |v| > 0 && !IsJsSpace(v[0]) && !IsJsSpace(v[|v| - 1])
    ensures Trim(a + v + b) == v
  {
    assert a + v + b == a + (v + b);
    TrimStartSkips(a, v + b);
    TrimEndSkips(v, b);
  }

  /** Trimming twice is trimming once. */
  lemma TrimIdempotent(s: string)
    ensures Trim(Trim(s)) == Trim(s)
  {
    var t := Trim(s);
    if t != "" {
      TrimPadded("", t, "");
      assert "" + t + "" == t;
    }
  }
}
