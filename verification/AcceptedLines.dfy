/**
The accepted-line scanner over unified diffs, and a printer of structured git
diffs to run it against.

Fingerprints are kept as (path, normalised line) pairs: hashing them is a pure
function of the pair.  Unicode's alphanumeric test is the parameter `alnum`.
*/
module AcceptedLines {
  import opened Common

  // ----- Text -----

  /** Unicode `White_Space`, as `char::is_whitespace` has it. */
  predicate Space(c: char)
  {
    var n := c as int;
    9 <= n <= 13 || n == 0x20 || n == 0x85 || n == 0xA0 || n == 0x1680 || 0x2000 <= n <= 0x200A ||
    n == 0x2028 || n == 0x2029 || n == 0x202F || n == 0x205F || n == 0x3000
  }

  /** The code points of Unicode's White_Space property. */
  lemma SpaceIff(c: char)
    ensures var spaces := {9, 10, 11, 12, 13, 32, 133, 160, 5760, 8192, 8193, 8194, 8195, 8196, 8197, 8198, 8199, 8200,
        8201, 8202, 8232, 8233, 8239, 8287, 12288};
      Space(c) <==> c as int in spaces
  {
  }

  function StripCR(s: string): string
  {
    if s != [] && s[|s| - 1] == '\r' then s[..|s| - 1] else s
  }

  function LineEnd(s: string): (k: nat)
    ensures k <= |s| && (k < |s| ==> s[k] == '\n') && forall i :: 0 <= i < k ==> s[i] != '\n'
  {
    if s == [] || s[0] == '\n' then 0 else 1 + LineEnd(s[1..])
  }

  /** `str::lines`. */
  function Lines(text: string): seq<string>
  {
    if text == [] then []
    else
      var k := LineEnd(text);
      if k == |text| then [text] else [StripCR(text[..k])] + Lines(text[k + 1..])
  }

  function Unlines(lines: seq<string>): string
  {
    if lines == [] then [] else lines[0] + ['\n'] + Unlines(lines[1..])
  }

  function TrimEnd(s: string): string
  {
    if s != [] && Space(s[|s| - 1]) then TrimEnd(s[..|s| - 1]) else s
  }

  function TrimStart(s: string): string
  {
    if s != [] && Space(s[0]) then TrimStart(s[1..]) else s
  }

  /** `split_whitespace`, with the word read so far in `word`. */
  function Words(s: string, word: string): seq<string>
  {
    var done := if word == [] then [] else [word];
    if s == [] then done
    else if Space(s[0]) then done + Words(s[1..], [])
    else Words(s[1..], word + [s[0]])
  }

  function Join(words: seq<string>): string
  {
    if words == [] then [] else if |words| == 1 then words[0] else words[0] + [' '] + Join(words[1..])
  }

  function Utf8Length(s: string): nat
  {
    if s == [] then 0
    else
      var n := s[0] as int;
      (if n < 0x80 then 1 else if n < 0x800 then 2 else if n < 0x10000 then 3 else 4) + Utf8Length(s[1..])
  }

  // ----- The scanner -----

  /** `normalize_effective_line`. */
  function EffectiveLine(line: string, alnum: char -> bool): Option<string>
  {
    var n := Join(Words(line, []));
    if Utf8Length(n) <= 3 then None
    else if exists i :: 0 <= i < |n| && (alnum(n[i]) || n[i] == '_') then Some(n)
    else None
  }

  /** `normalize_diff_path`. */
  function DiffPath(raw: string): Option<string>
  {
    var path := TrimEnd(TrimStart(raw));
    if path == "/dev/null" then None
    else if "b/" <= path || "a/" <= path then Some(path[2..])
    else Some(path)
  }

  datatype Summary = Summary(added: nat, deleted: nat, prints: seq<(string, string)>)

  datatype Scan = Scan(path: Option<string>, inHunk: bool, summary: Summary)

  const Empty: Summary := Summary(0, 0, [])
  const Start: Scan := Scan(None, false, Empty)

  function Plus(a: Summary, b: Summary): Summary
  {
    Summary(a.added + b.added, a.deleted + b.deleted, a.prints + b.prints)
  }

  function AddedLine(path: Option<string>, text: string, alnum: char -> bool): Summary
  {
    var line := EffectiveLine(text, alnum);
    Summary(1, 0, if path.Some? && line.Some? then [(path.value, line.value)] else [])
  }

  function ScanLine(s: Scan, line: string, alnum: char -> bool): Scan
  {
    if "diff --git " <= line then s.(path := None, inHunk := false)
    else if "@@ " <= line then s.(inHunk := true)
    else if !s.inHunk && "+++ " <= line then s.(path := DiffPath(line[4..]))
    else if !s.inHunk && "--- " <= line then s
    else if "+" <= line then s.(summary := Plus(s.summary, AddedLine(s.path, line[1..], alnum)))
    else if "-" <= line then s.(summary := Plus(s.summary, Summary(0, 1, [])))
    else s
  }

  function ScanLines(s: Scan, lines: seq<string>, alnum: char -> bool): Scan
    decreases |lines|
  {
    if lines == [] then s else ScanLines(ScanLine(s, lines[0], alnum), lines[1..], alnum)
  }

  /** `accepted_line_fingerprints_from_unified_diff`. */
  function Summarize(diff: string, alnum: char -> bool): Summary
  {
    ScanLines(Start, Lines(diff), alnum).summary
  }

  lemma {:induction false} ScanConcat(s: Scan, a: seq<string>, b: seq<string>, alnum: char -> bool)
    ensures ScanLines(s, a + b, alnum) == ScanLines(ScanLines(s, a, alnum), b, alnum)
    decreases |a|
  {
    if a == [] {
      assert a + b == b;
    } else {
      assert (a + b)[1..] == a[1..] + b;
      ScanConcat(ScanLine(s, a[0], alnum), a[1..], b, alnum);
    }
  }

  /** The scanner as a loop over its path, its hunk flag, its counters and its list. */
  method ScanDiff(diff: string, alnum: char -> bool) returns (r: Summary)
    ensures r == Summarize(diff, alnum)
  {
    var currentPath: Option<string> := None;
    var inHunk := false;
    r := Empty;
    var lines := Lines(diff);
    for i := 0 to |lines|
      invariant ScanLines(Start, lines, alnum) == ScanLines(Scan(currentPath, inHunk, r), lines[i..], alnum)
    {
      assert lines[i..][0] == lines[i] && lines[i..][1..] == lines[i + 1..];
      currentPath, inHunk, r := ScanOne(currentPath, inHunk, r, lines[i], alnum);
    }
  }

  method ScanOne(path: Option<string>, hunk: bool, s: Summary, line: string, alnum: char -> bool)
    returns (currentPath: Option<string>, inHunk: bool, r: Summary)
    ensures Scan(currentPath, inHunk, r) == ScanLine(Scan(path, hunk, s), line, alnum)
  {
    currentPath, inHunk, r := path, hunk, s;
    if "diff --git " <= line {
      currentPath, inHunk := None, false;
    } else if "@@ " <= line {
      inHunk := true;
    } else if !inHunk && "+++ " <= line {
      currentPath := DiffPath(line[4..]);
    } else if !inHunk && "--- " <= line {
    } else if "+" <= line {
      var effective := EffectiveLine(line[1..], alnum);
      r := r.(added := r.added + 1);
      if currentPath.Some? && effective.Some? {
        r := r.(prints := r.prints + [(currentPath.value, effective.value)]);
      }
    } else if "-" <= line {
      r := r.(deleted := r.deleted + 1);
    }
  }

  // ----- Structured git diffs -----

  datatype DiffLine = Added(text: string) | Deleted(text: string) | Context(text: string) | NoNewline

  datatype Hunk = Hunk(range: string, lines: seq<DiffLine>)

  /** `None` is `/dev/null`. */
  datatype Body = Body(oldPath: Option<string>, newPath: Option<string>, hunks: seq<Hunk>)

  datatype FileDiff = FileDiff(names: string, headers: seq<string>, body: Option<Body>)

  /** Git ends a name that contains a space with a tab. */
  function PathText(prefix: string, path: Option<string>): string
  {
    if path.None? then "/dev/null" else prefix + path.value + (if ' ' in path.value then "\t" else "")
  }

  function LineText(l: DiffLine): string
  {
    match l
    case Added(t) => "+" + t
    case Deleted(t) => "-" + t
    case Context(t) => " " + t
    case NoNewline => "\\ No newline at end of file"
  }

  function PrintLines(lines: seq<DiffLine>): seq<string>
  {
    if lines == [] then [] else [LineText(lines[0])] + PrintLines(lines[1..])
  }

  function PrintHunks(hunks: seq<Hunk>): seq<string>
  {
    if hunks == [] then [] else ["@@ " + hunks[0].range] + PrintLines(hunks[0].lines) + PrintHunks(hunks[1..])
  }

  function PrintBody(b: Body): seq<string>
  {
    ["--- " + PathText("a/", b.oldPath), "+++ " + PathText("b/", b.newPath)] + PrintHunks(b.hunks)
  }

  function PrintFile(f: FileDiff): seq<string>
  {
    ["diff --git " + f.names] + f.headers + if f.body.Some? then PrintBody(f.body.value) else []
  }

  function PrintDiff(files: seq<FileDiff>): seq<string>
  {
    if files == [] then [] else PrintFile(files[0]) + PrintDiff(files[1..])
  }

  predicate OneLine(s: string)
  {
    '\n' !in s
  }

  /** Extended headers (modes, renames, index lines) are none of the lines the scanner acts on. */
  predicate PlainHeader(h: string)
  {
    !("+" <= h) && !("-" <= h) && !("@@ " <= h) && !("diff --git " <= h)
  }

  predicate GitForm(f: FileDiff)
  {
    && (forall i :: 0 <= i < |f.headers| ==> PlainHeader(f.headers[i]))
    && (forall i :: 0 <= i < |PrintFile(f)| ==> OneLine(PrintFile(f)[i]))
  }

  // ----- What the structured diff says -----

  function LineSummary(path: Option<string>, l: DiffLine, alnum: char -> bool): Summary
  {
    match l
    case Added(t) => AddedLine(path, t, alnum)
    case Deleted(_) => Summary(0, 1, [])
    case _ => Empty
  }

  function LinesSummary(path: Option<string>, lines: seq<DiffLine>, alnum: char -> bool): Summary
  {
    if lines == [] then Empty else Plus(LineSummary(path, lines[0], alnum), LinesSummary(path, lines[1..], alnum))
  }

  function HunksSummary(path: Option<string>, hunks: seq<Hunk>, alnum: char -> bool): Summary
  {
    if hunks == [] then Empty
    else Plus(LinesSummary(path, hunks[0].lines, alnum), HunksSummary(path, hunks[1..], alnum))
  }

  /** A path is recorded without trailing white space. */
  function Recorded(path: Option<string>): Option<string>
  {
    if path.None? then None else Some(TrimEnd(path.value))
  }

  function FileSummary(f: FileDiff, alnum: char -> bool): Summary
  {
    if f.body.None? then Empty else HunksSummary(Recorded(f.body.value.newPath), f.body.value.hunks, alnum)
  }

  function DiffSummary(files: seq<FileDiff>, alnum: char -> bool): Summary
  {
    if files == [] then Empty else Plus(FileSummary(files[0], alnum), DiffSummary(files[1..], alnum))
  }

  // ----- Reading the text back -----

  lemma {:induction false} LineEndAt(s: string, rest: string)
    requires OneLine(s)
    ensures LineEnd(s + ['\n'] + rest) == |s|
  {
    var t := s + ['\n'] + rest;
    if s != [] {
      assert t[1..] == s[1..] + ['\n'] + rest;
      LineEndAt(s[1..], rest);
    }
  }

  function Stripped(lines: seq<string>): (r: seq<string>)
    ensures |r| == |lines| && forall i :: 0 <= i < |lines| ==> r[i] == StripCR(lines[i])
  {
    seq(|lines|, i requires 0 <= i < |lines| => StripCR(lines[i]))
  }

  lemma LinesCons(line: string, tail: string)
    requires OneLine(line)
    ensures Lines(line + ['\n'] + tail) == [StripCR(line)] + Lines(tail)
  {
    var t := line + ['\n'] + tail;
    LineEndAt(line, tail);
    assert t[..|line|] == line && t[|line| + 1..] == tail;
  }

  lemma UnlinesCons(lines: seq<string>, rest: string)
    requires lines != []
    ensures Unlines(lines) + rest == lines[0] + ['\n'] + (Unlines(lines[1..]) + rest)
  {
    Regroup(lines[0] + ['\n'], Unlines(lines[1..]), rest);
  }

  lemma StrippedCons(lines: seq<string>, rest: seq<string>)
    requires lines != []
    ensures [StripCR(lines[0])] + (Stripped(lines[1..]) + rest) == Stripped(lines) + rest
  {
    assert Stripped(lines) == [StripCR(lines[0])] + Stripped(lines[1..]);
  }

  lemma {:induction false} LinesOfUnlines(lines: seq<string>, rest: string)
    requires forall i :: 0 <= i < |lines| ==> OneLine(lines[i])
    ensures Lines(Unlines(lines) + rest) == Stripped(lines) + Lines(rest)
  {
    if lines == [] {
      assert Unlines(lines) + rest == rest;
    } else {
      calc {
        Lines(Unlines(lines) + rest);
        { UnlinesCons(lines, rest); LinesCons(lines[0], Unlines(lines[1..]) + rest); }
        [StripCR(lines[0])] + Lines(Unlines(lines[1..]) + rest);
        { LinesOfUnlines(lines[1..], rest); }
        [StripCR(lines[0])] + (Stripped(lines[1..]) + Lines(rest));
        { StrippedCons(lines, Lines(rest)); }
        Stripped(lines) + Lines(rest);
      }
    }
  }

  // ----- The scanner on printed lines -----

  lemma {:induction false} WordsTrailingSpace(s: string, word: string, c: char)
    requires Space(c)
    ensures Words(s + [c], word) == Words(s, word)
    decreases |s|
  {
    if s == [] {
      assert (s + [c])[1..] == [];
    } else {
      assert (s + [c])[1..] == s[1..] + [c];
      WordsTrailingSpace(s[1..], if Space(s[0]) then [] else word + [s[0]], c);
    }
  }

  predicate IsWord(w: string)
  {
    w != [] && forall i :: 0 <= i < |w| ==> !Space(w[i])
  }

  lemma {:induction false} WordsAreWords(s: string, word: string)
    requires word == [] || IsWord(word)
    ensures forall i :: 0 <= i < |Words(s, word)| ==> IsWord(Words(s, word)[i])
    decreases |s|
  {
    if s != [] { WordsAreWords(s[1..], if Space(s[0]) then [] else word + [s[0]]); }
  }

  /** Reading a word through takes it in whole. */
  lemma {:induction false} WordRead(w: string, word: string, rest: string)
    requires w == [] || IsWord(w)
    ensures Words(w + rest, word) == Words(rest, word + w)
    decreases |w|
  {
    if w == [] {
      assert w + rest == rest && word + w == word;
    } else {
      assert (w + rest)[1..] == w[1..] + rest;
      WordRead(w[1..], word + [w[0]], rest);
      assert word + [w[0]] + w[1..] == word + w;
    }
  }

  lemma {:induction false} WordsOfJoin(words: seq<string>)
    requires forall i :: 0 <= i < |words| ==> IsWord(words[i])
    ensures Words(Join(words), []) == words
    decreases |words|
  {
    if words != [] {
      var w, rest := words[0], if |words| == 1 then [] else [' '] + Join(words[1..]);
      assert Join(words) == w + rest;
      WordRead(w, [], rest);
      if |words| > 1 {
        WordsOfJoin(words[1..]);
        assert rest[0] == ' ' && rest[1..] == Join(words[1..]);
        assert [] + w == w;
        assert Words(rest, w) == [w] + Words(rest[1..], []);
        assert [w] + words[1..] == words;
      }
    }
  }

  /** A normalised line is its own normal form, so lines that differ only in their white space agree. */
  lemma EffectiveLineNormal(line: string, alnum: char -> bool)
    requires EffectiveLine(line, alnum).Some?
    ensures Words(EffectiveLine(line, alnum).value, []) == Words(line, [])
    ensures EffectiveLine(EffectiveLine(line, alnum).value, alnum) == EffectiveLine(line, alnum)
  {
    WordsAreWords(line, []);
    WordsOfJoin(Words(line, []));
  }

  /** A line counts when its normal form has more than three bytes and a letter, digit or underscore among them. */
  lemma EffectiveIff(line: string, alnum: char -> bool)
    ensures var n := Join(Words(line, []));
      && (EffectiveLine(line, alnum) == Some(n) <==> Utf8Length(n) >= 4 && exists c :: c in n && (alnum(c) || c == '_'))
      && (EffectiveLine(line, alnum).Some? ==> EffectiveLine(line, alnum).value == n)
  {
    var n := Join(Words(line, []));
    if c :| c in n && (alnum(c) || c == '_') {
      var i :| 0 <= i < |n| && n[i] == c;
      assert alnum(n[i]) || n[i] == '_';
    }
    if i :| 0 <= i < |n| && (alnum(n[i]) || n[i] == '_') {
      assert n[i] in n;
    }
  }

  /** Normalising changes white space only: the other characters stay, in order. */
  function Visible(s: string): string
  {
    if s == [] then [] else (if Space(s[0]) then [] else [s[0]]) + Visible(s[1..])
  }

  function Concat(words: seq<string>): string
  {
    if words == [] then [] else words[0] + Concat(words[1..])
  }

  lemma ConcatOne(word: string)
    ensures Concat([word]) == word
  {
    assert [word][1..] == [];
  }

  lemma {:induction false} WordsKeepVisible(s: string, word: string)
    ensures Concat(Words(s, word)) == word + Visible(s)
    decreases |s|
  {
    if s == [] {
      if word != [] { ConcatOne(word); }
    } else if Space(s[0]) {
      WordsKeepVisible(s[1..], []);
      NothingBefore(Visible(s[1..]));
      if word != [] {
        assert ([word] + Words(s[1..], []))[1..] == Words(s[1..], []);
      } else {
        NothingBefore(Words(s[1..], []));
      }
    } else {
      WordsKeepVisible(s[1..], word + [s[0]]);
      Regroup(word, [s[0]], Visible(s[1..]));
    }
  }

  lemma {:induction false} WordVisible(w: string)
    requires forall i :: 0 <= i < |w| ==> !Space(w[i])
    ensures Visible(w) == w
  {
    if w != [] {
      WordVisible(w[1..]);
      assert w == [w[0]] + w[1..];
    }
  }

  lemma {:induction false} JoinKeepsVisible(words: seq<string>)
    requires forall i :: 0 <= i < |words| ==> IsWord(words[i])
    ensures Visible(Join(words)) == Concat(words)
  {
    if words != [] {
      if |words| == 1 {
        WordVisible(words[0]);
        ConcatOne(words[0]);
        assert words == [words[0]];
      } else {
        JoinKeepsVisible(words[1..]);
        VisibleJoined(words[0], Join(words[1..]));
      }
    }
  }

  lemma VisibleCons(c: char, s: string)
    ensures Visible([c] + s) == (if Space(c) then [] else [c]) + Visible(s)
  {
    assert ([c] + s)[1..] == s;
  }

  lemma {:induction false} VisibleJoined(w: string, rest: string)
    requires forall i :: 0 <= i < |w| ==> !Space(w[i])
    ensures Visible(w + [' '] + rest) == w + Visible(rest)
  {
    if w == [] {
      NothingBefore([' ']);
      VisibleCons(' ', rest);
    } else {
      var tail := w[1..] + [' '] + rest;
      VisibleJoined(w[1..], rest);
      VisibleCons(w[0], tail);
      assert w + [' '] + rest == [w[0]] + tail;
      Regroup([w[0]], w[1..], Visible(rest));
      assert w == [w[0]] + w[1..];
    }
  }

  lemma NormalKeepsVisible(line: string)
    ensures Visible(Join(Words(line, []))) == Visible(line)
  {
    WordsAreWords(line, []);
    JoinKeepsVisible(Words(line, []));
    WordsKeepVisible(line, []);
    NothingBefore(Visible(line));
  }

  /** The carriage return `lines` strips is white space anyway. */
  lemma EffectiveLineStripped(t: string, alnum: char -> bool)
    ensures EffectiveLine(StripCR(t), alnum) == EffectiveLine(t, alnum)
  {
    if StripCR(t) != t {
      assert t == StripCR(t) + ['\r'];
      WordsTrailingSpace(StripCR(t), [], '\r');
    }
  }

  lemma OtherStart(prefix: string, line: string)
    requires prefix != [] && line != [] && prefix[0] != line[0]
    ensures !(prefix <= line)
  {
  }

  /** A content line starts with one of four characters, so it is never a file or hunk header. */
  lemma ContentStart(line: string)
    requires line != [] && (line[0] == '+' || line[0] == '-' || line[0] == ' ' || line[0] == '\\')
    ensures !("diff --git " <= line) && !("@@ " <= line)
    ensures "+" <= line <==> line[0] == '+'
    ensures "-" <= line <==> line[0] == '-'
  {
    OtherStart("diff --git ", line);
    OtherStart("@@ ", line);
  }

  lemma ContentText(l: DiffLine)
    ensures var line := StripCR(LineText(l));
      && line != [] && line[0] == LineText(l)[0]
      && (l.Added? ==> line[1..] == StripCR(l.text))
  {
    if l.Added? { assert StripCR("+" + l.text) == "+" + StripCR(l.text); }
  }

  lemma ScanContent(s: Scan, l: DiffLine, alnum: char -> bool)
    requires s.inHunk
    ensures ScanLine(s, StripCR(LineText(l)), alnum) == s.(summary := Plus(s.summary, LineSummary(s.path, l, alnum)))
  {
    ContentText(l);
    ContentStart(StripCR(LineText(l)));
    PlusEmpty(s.summary);
    if l.Added? { EffectiveLineStripped(l.text, alnum); }
  }

  lemma PlusEmpty(a: Summary)
    ensures Plus(a, Empty) == a && Plus(Empty, a) == a
  {
  }

  lemma PlusAssociates(a: Summary, b: Summary, c: Summary)
    ensures Plus(Plus(a, b), c) == Plus(a, Plus(b, c))
  {
    assert a.prints + b.prints + c.prints == a.prints + (b.prints + c.prints);
  }

  lemma StrippedConcat(a: seq<string>, b: seq<string>)
    ensures Stripped(a + b) == Stripped(a) + Stripped(b)
  {
  }

  /** Scanning the printed form of `a + b` is scanning `a`, then `b`. */
  lemma ScanPrinted(s: Scan, a: seq<string>, b: seq<string>, alnum: char -> bool)
    ensures ScanLines(s, Stripped(a + b), alnum) == ScanLines(ScanLines(s, Stripped(a), alnum), Stripped(b), alnum)
  {
    StrippedConcat(a, b);
    ScanConcat(s, Stripped(a), Stripped(b), alnum);
  }

  lemma ScanOneLine(s: Scan, line: string, alnum: char -> bool)
    ensures ScanLines(s, Stripped([line]), alnum) == ScanLine(s, StripCR(line), alnum)
  {
    assert Stripped([line]) == [StripCR(line)];
    assert [StripCR(line)][1..] == [];
  }

  lemma {:induction false} ScanContentLines(s: Scan, lines: seq<DiffLine>, alnum: char -> bool)
    requires s.inHunk
    ensures ScanLines(s, Stripped(PrintLines(lines)), alnum) ==
      s.(summary := Plus(s.summary, LinesSummary(s.path, lines, alnum)))
    decreases |lines|
  {
    PlusEmpty(s.summary);
    if lines != [] {
      var first := LineSummary(s.path, lines[0], alnum);
      var t := s.(summary := Plus(s.summary, first));
      ScanPrinted(s, [LineText(lines[0])], PrintLines(lines[1..]), alnum);
      ScanOneLine(s, LineText(lines[0]), alnum);
      ScanContent(s, lines[0], alnum);
      ScanContentLines(t, lines[1..], alnum);
      PlusAssociates(s.summary, first, LinesSummary(s.path, lines[1..], alnum));
    }
  }

  lemma HunkHeader(s: Scan, range: string, alnum: char -> bool)
    ensures ScanLine(s, StripCR("@@ " + range), alnum) == s.(inHunk := true)
  {
    var line := StripCR("@@ " + range);
    assert line == "@@ " + StripCR(range);
    OtherStart("diff --git ", line);
  }

  /** Hunks change neither the path nor anything but the totals, whatever their lines look like. */
  lemma {:induction false} ScanHunks(s: Scan, hunks: seq<Hunk>, alnum: char -> bool)
    ensures var t := ScanLines(s, Stripped(PrintHunks(hunks)), alnum);
      t.path == s.path && t.summary == Plus(s.summary, HunksSummary(s.path, hunks, alnum))
    decreases |hunks|
  {
    PlusEmpty(s.summary);
    if hunks != [] {
      var header, content, more := ["@@ " + hunks[0].range], PrintLines(hunks[0].lines), PrintHunks(hunks[1..]);
      var first := LinesSummary(s.path, hunks[0].lines, alnum);
      var t := s.(inHunk := true, summary := Plus(s.summary, first));
      ScanPrinted(s, header + content, more, alnum);
      ScanPrinted(s, header, content, alnum);
      ScanOneLine(s, "@@ " + hunks[0].range, alnum);
      HunkHeader(s, hunks[0].range, alnum);
      ScanContentLines(s.(inHunk := true), hunks[0].lines, alnum);
      ScanHunks(t, hunks[1..], alnum);
      PlusAssociates(s.summary, first, HunksSummary(s.path, hunks[1..], alnum));
    }
  }

  lemma PlainHeaderStripped(s: Scan, h: string, alnum: char -> bool)
    requires PlainHeader(h)
    ensures ScanLine(s, StripCR(h), alnum) == s
  {
    assert StripCR(h) <= h;
    assert "+++ " <= StripCR(h) ==> "+" <= StripCR(h);
    assert "--- " <= StripCR(h) ==> "-" <= StripCR(h);
  }

  lemma {:induction false} ScanHeaders(s: Scan, headers: seq<string>, alnum: char -> bool)
    requires forall i :: 0 <= i < |headers| ==> PlainHeader(headers[i])
    ensures ScanLines(s, Stripped(headers), alnum) == s
    decreases |headers|
  {
    if headers != [] {
      PlainHeaderStripped(s, headers[0], alnum);
      assert Stripped(headers)[1..] == Stripped(headers[1..]);
      ScanHeaders(s, headers[1..], alnum);
    }
  }

  // ----- Paths -----

  lemma {:induction false} TrimEndAppend(a: string, b: string)
    requires a != [] && !Space(a[|a| - 1])
    ensures TrimEnd(a + b) == a + TrimEnd(b)
    decreases |b|
  {
    if b == [] {
      assert a + b == a;
    } else {
      assert (a + b)[..|a + b| - 1] == a + b[..|b| - 1];
      TrimEndAppend(a, b[..|b| - 1]);
    }
  }

  lemma TrimEndStrips(s: string, c: char)
    requires Space(c)
    ensures TrimEnd(s + [c]) == TrimEnd(s)
  {
    assert (s + [c])[..|s|] == s;
  }

  lemma TrimEndStripCR(s: string)
    ensures TrimEnd(StripCR(s)) == TrimEnd(s)
  {
  }

  lemma StripCRAppend(a: string, b: string)
    requires a != [] && a[|a| - 1] != '\r'
    ensures StripCR(a + b) == a + StripCR(b)
  {
    if b == [] { assert a + b == a; }
  }

  lemma NewSidePath(name: string)
    ensures DiffPath("b/" + name) == Some(TrimEnd(name))
  {
    var raw := "b/" + name;
    assert TrimStart(raw) == raw;
    TrimEndAppend("b/", name);
    var path := "b/" + TrimEnd(name);
    assert "b/" <= path && path[2..] == TrimEnd(name);
    OtherStart("/dev/null", path);
  }

  lemma OldSidePath(name: string)
    ensures DiffPath("a/" + name) == Some(TrimEnd(name))
  {
    var raw := "a/" + name;
    assert TrimStart(raw) == raw;
    TrimEndAppend("a/", name);
    var path := "a/" + TrimEnd(name);
    assert "a/" <= path && path[2..] == TrimEnd(name);
    OtherStart("/dev/null", path);
    OtherStart("b/", path);
  }

  /** Every other path is taken as it stands, and only `/dev/null` is no path. */
  lemma OtherPath(name: string)
    requires name != [] && !Space(name[0]) && !Space(name[|name| - 1]) && !("a/" <= name) && !("b/" <= name)
    ensures DiffPath(name) == if name == "/dev/null" then None else Some(name)
  {
    assert TrimStart(name) == name;
    TrimEndShortens(name);
  }

  lemma NewPathRecorded(path: Option<string>)
    ensures DiffPath(StripCR(PathText("b/", path))) == Recorded(path)
  {
    if path.Some? {
      var p, tab := path.value, if ' ' in path.value then "\t" else "";
      var name := p + tab;
      assert "b/" + p + tab == "b/" + name;
      StripCRAppend("b/", name);
      NewSidePath(StripCR(name));
      TrimEndStripCR(name);
      if ' ' in p { TrimEndStrips(p, '\t'); } else { assert name == p; }
    }
  }

  lemma {:induction false} TrimEndShortens(s: string)
    ensures |TrimEnd(s)| <= |s| && (TrimEnd(s) == s <==> s == [] || !Space(s[|s| - 1]))
  {
    if s != [] && Space(s[|s| - 1]) { TrimEndShortens(s[..|s| - 1]); }
  }

  /** A new-side path is read back unchanged exactly when it does not end in white space. */
  lemma PathKeptIff(path: string)
    ensures DiffPath(StripCR(PathText("b/", Some(path)))) == Some(path) <==> path == [] || !Space(path[|path| - 1])
  {
    NewPathRecorded(Some(path));
    TrimEndShortens(path);
  }

  lemma ScanBody(s: Scan, b: Body, alnum: char -> bool)
    requires !s.inHunk
    ensures ScanLines(s, Stripped(PrintBody(b)), alnum).summary ==
      Plus(s.summary, HunksSummary(Recorded(b.newPath), b.hunks, alnum))
  {
    var minus, plus := "--- " + PathText("a/", b.oldPath), "+++ " + PathText("b/", b.newPath);
    var t := s.(path := Recorded(b.newPath));
    ScanPrinted(s, [minus, plus], PrintHunks(b.hunks), alnum);
    assert [minus, plus] == [minus] + [plus];
    ScanPrinted(s, [minus], [plus], alnum);
    ScanOneLine(s, minus, alnum);
    ScanOneLine(s, plus, alnum);
    ScanOldName(s, PathText("a/", b.oldPath), alnum);
    ScanNewName(s, PathText("b/", b.newPath), alnum);
    NewPathRecorded(b.newPath);
    ScanHunks(t, b.hunks, alnum);
  }

  lemma ScanOldName(s: Scan, name: string, alnum: char -> bool)
    requires !s.inHunk
    ensures ScanLine(s, StripCR("--- " + name), alnum) == s
  {
    StripCRAppend("--- ", name);
    var line := "--- " + StripCR(name);
    OtherStart("diff --git ", line);
    OtherStart("@@ ", line);
    OtherStart("+++ ", line);
  }

  lemma ScanNewName(s: Scan, name: string, alnum: char -> bool)
    requires !s.inHunk
    ensures ScanLine(s, StripCR("+++ " + name), alnum) == s.(path := DiffPath(StripCR(name)))
  {
    StripCRAppend("+++ ", name);
    var line := "+++ " + StripCR(name);
    OtherStart("diff --git ", line);
    OtherStart("@@ ", line);
    assert line[4..] == StripCR(name);
  }

  lemma ScanFileStart(s: Scan, names: string, alnum: char -> bool)
    ensures ScanLine(s, StripCR("diff --git " + names), alnum) == s.(path := None, inHunk := false)
  {
    StripCRAppend("diff --git ", names);
  }

  lemma ScanFile(s: Scan, f: FileDiff, alnum: char -> bool)
    requires GitForm(f)
    ensures ScanLines(s, Stripped(PrintFile(f)), alnum).summary == Plus(s.summary, FileSummary(f, alnum))
  {
    var start, body := "diff --git " + f.names, if f.body.Some? then PrintBody(f.body.value) else [];
    var t := s.(path := None, inHunk := false);
    ScanPrinted(s, [start] + f.headers, body, alnum);
    ScanPrinted(s, [start], f.headers, alnum);
    ScanOneLine(s, start, alnum);
    ScanFileStart(s, f.names, alnum);
    ScanHeaders(t, f.headers, alnum);
    if f.body.Some? { ScanBody(t, f.body.value, alnum); } else { PlusEmpty(s.summary); }
  }

  lemma {:induction false} ScanFiles(s: Scan, files: seq<FileDiff>, alnum: char -> bool)
    requires forall i :: 0 <= i < |files| ==> GitForm(files[i])
    ensures ScanLines(s, Stripped(PrintDiff(files)), alnum).summary == Plus(s.summary, DiffSummary(files, alnum))
    decreases |files|
  {
    PlusEmpty(s.summary);
    if files != [] {
      var t := ScanLines(s, Stripped(PrintFile(files[0])), alnum);
      ScanPrinted(s, PrintFile(files[0]), PrintDiff(files[1..]), alnum);
      ScanFile(s, files[0], alnum);
      ScanFiles(t, files[1..], alnum);
      PlusAssociates(s.summary, FileSummary(files[0], alnum), DiffSummary(files[1..], alnum));
    }
  }

  lemma {:induction false} PrintDiffOneLine(files: seq<FileDiff>)
    requires forall i :: 0 <= i < |files| ==> GitForm(files[i])
    ensures forall i :: 0 <= i < |PrintDiff(files)| ==> OneLine(PrintDiff(files)[i])
  {
    if files != [] { PrintDiffOneLine(files[1..]); }
  }

  /**
  For every diff printed in git form the scanner finds exactly the added and
  deleted lines of the structured diff and their fingerprints in order, even
  when a content line reads like a file header.
  */
  lemma ScannerReadsGitDiffs(files: seq<FileDiff>, alnum: char -> bool)
    requires forall i :: 0 <= i < |files| ==> GitForm(files[i])
    ensures Summarize(Unlines(PrintDiff(files)), alnum) == DiffSummary(files, alnum)
  {
    PrintDiffOneLine(files);
    var lines := PrintDiff(files);
    LinesOfUnlines(lines, []);
    assert Unlines(lines) + [] == Unlines(lines) && Stripped(lines) + Lines([]) == Stripped(lines);
    ScanFiles(Start, files, alnum);
    PlusEmpty(DiffSummary(files, alnum));
  }

  // ----- Concatenation -----

  lemma FirstNewline(a: string) returns (line: string, tail: string)
    requires a != [] && a[|a| - 1] == '\n'
    ensures OneLine(line) && a == line + ['\n'] + tail && (tail == [] || tail[|tail| - 1] == '\n')
  {
    var k := LineEnd(a);
    line, tail := a[..k], a[k + 1..];
  }

  lemma {:induction false} LinesConcat(a: string, b: string)
    requires a == [] || a[|a| - 1] == '\n'
    ensures Lines(a + b) == Lines(a) + Lines(b)
    decreases |a|
  {
    if a == [] {
      assert a + b == b;
    } else {
      var line, tail := FirstNewline(a);
      calc {
        Lines(a + b);
        { Regroup(line + ['\n'], tail, b); }
        Lines(line + ['\n'] + (tail + b));
        { LinesCons(line, tail + b); }
        [StripCR(line)] + Lines(tail + b);
        { LinesConcat(tail, b); }
        [StripCR(line)] + (Lines(tail) + Lines(b));
        { Regroup([StripCR(line)], Lines(tail), Lines(b)); }
        [StripCR(line)] + Lines(tail) + Lines(b);
        { LinesCons(line, tail); }
        Lines(a) + Lines(b);
      }
    }
  }

  /** What was counted before only adds to what is counted after. */
  lemma {:induction false} ScanShift(s: Scan, base: Summary, lines: seq<string>, alnum: char -> bool)
    ensures ScanLines(s.(summary := Plus(base, s.summary)), lines, alnum).summary ==
      Plus(base, ScanLines(s, lines, alnum).summary)
    decreases |lines|
  {
    if lines != [] {
      var t := ScanLine(s, lines[0], alnum);
      PlusAssociates(base, s.summary, AddedLine(s.path, if lines[0] != [] then lines[0][1..] else [], alnum));
      PlusAssociates(base, s.summary, Summary(0, 1, []));
      assert ScanLine(s.(summary := Plus(base, s.summary)), lines[0], alnum) == t.(summary := Plus(base, t.summary));
      ScanShift(t, base, lines[1..], alnum);
    }
  }

  lemma FirstLine(b: string)
    requires "diff --git " <= b
    ensures Lines(b) != [] && "diff --git " <= Lines(b)[0]
  {
    var k := LineEnd(b);
    assert forall i :: 0 <= i < 11 ==> b[i] == "diff --git "[i];
    assert k >= 11;
    assert b[..k] == "diff --git " + b[11..k];
    StripCRAppend("diff --git ", b[11..k]);
  }

  lemma FileStartResets(s: Scan, lines: seq<string>, alnum: char -> bool)
    requires lines != [] && "diff --git " <= lines[0]
    ensures ScanLines(s, lines, alnum) == ScanLines(Start.(summary := s.summary), lines, alnum)
  {
  }

  lemma LineSummariesAdd(a: seq<string>, b: seq<string>, alnum: char -> bool)
    requires b == [] || "diff --git " <= b[0]
    ensures ScanLines(Start, a + b, alnum).summary ==
      Plus(ScanLines(Start, a, alnum).summary, ScanLines(Start, b, alnum).summary)
  {
    var s := ScanLines(Start, a, alnum);
    ScanConcat(Start, a, b, alnum);
    PlusEmpty(s.summary);
    if b != [] {
      FileStartResets(s, b, alnum);
      ScanShift(Start, s.summary, b, alnum);
    }
  }

  /** Summaries add up over concatenated diffs: each file start wipes the scanner's path and hunk flag. */
  lemma SummariesAdd(a: string, b: string, alnum: char -> bool)
    requires a == [] || a[|a| - 1] == '\n'
    requires b == [] || "diff --git " <= b
    ensures Summarize(a + b, alnum) == Plus(Summarize(a, alnum), Summarize(b, alnum))
  {
    LinesConcat(a, b);
    if b != [] { FirstLine(b); }
    LineSummariesAdd(Lines(a), Lines(b), alnum);
  }
}
