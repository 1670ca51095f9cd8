/** The final-report node of the graph (`final_report_generation`): it joins the
    research notes into the findings text sent to the writer model, takes the
    report's title from its first `# ` heading, turns the title into a file name
    under `final_reports/`, and returns the report and a completion message.
    The writer model's reply is a parameter; writing the file is left out, only
    the path and the content are computed. */
module Report {
  import opened Wrappers
  import opened Text
  import opened StateScope
  import opened Seqs

  const DefaultTitle := "fact_check_report"
  const ReportDirectory := "final_reports"
  const MaxStemLength := 50
  const CompletionPrefix := "Fact-check completed! Final report saved to: "

  // ---------------------------------------------------------------------------
  // Findings: the notes, one per line

  /** What the writer model is given: the claim statement (empty when it is
      absent) and the findings, the notes joined by newlines. */
  datatype ReportRequest = ReportRequest(researchBrief: string, findings: string)

  function ReportRequestOf(s: AgentState): (req: ReportRequest)
    ensures s.claimStatement.Some? ==> req.researchBrief == s.claimStatement.value
    ensures s.claimStatement.None? ==> req.researchBrief == ""
    ensures req.findings == Join(s.notes, "\n")
  {
    ReportRequest(s.claimStatement.GetOr(""), Join(s.notes, "\n"))
  }

  /** Without notes the findings are empty; each further note adds a newline and
      that note at the end, so the notes appear in order. */
  lemma FindingsInOrder(notes: seq<string>, note: string)
    ensures Join([], "\n") == ""
    ensures Join([note], "\n") == note
    ensures |notes| >= 1 ==> Join(notes + [note], "\n") == Join(notes, "\n") + "\n" + note
  {
    if |notes| >= 1 {
      JoinSnoc(notes, note, "\n");
    }
  }

  /** The findings keep every note whole: when no note contains a newline, splitting
      the findings at newlines gives the notes back. */
  lemma FindingsRecoverNotes(notes: seq<string>)
    requires |notes| >= 1
    requires forall i :: 0 <= i < |notes| ==> '\n' !in notes[i]
    ensures Split(Join(notes, "\n"), '\n') == notes
  {
    assert "\n" == ['\n'];
    SplitJoin(notes, '\n');
  }

  // ---------------------------------------------------------------------------
  // Title: the text after "# " on the first line whose stripped form starts so

  predicate IsTitleLine(line: string) {
    StartsWith(Strip(line), "# ")
  }

  function TitleText(line: string): string
    requires IsTitleLine(line)
  {
    Strip(line)[2..]
  }

  /** The title the node picks from the report's lines. */
  function TitleOf(lines: seq<string>): string
  {
    if |lines| == 0 then DefaultTitle
    else if IsTitleLine(lines[0]) then TitleText(lines[0])
    else TitleOf(lines[1..])
  }

  /** The title is the heading text of the first title line ... */
  lemma {:induction false} TitleOfFirstTitleLine(lines: seq<string>, i: nat)
    requires i < |lines| && IsTitleLine(lines[i])
    requires forall j :: 0 <= j < i ==> !IsTitleLine(lines[j])
    ensures TitleOf(lines) == TitleText(lines[i])
  {
    if i > 0 {
      assert !IsTitleLine(lines[0]);
      forall j | 0 <= j < i - 1 ensures !IsTitleLine(lines[1..][j]) {
        assert lines[1..][j] == lines[j + 1];
      }
      TitleOfFirstTitleLine(lines[1..], i - 1);
    }
  }

  /** ... and the default title when no line is a title line. */
  lemma {:induction false} TitleOfWithoutTitleLine(lines: seq<string>)
    requires forall j :: 0 <= j < |lines| ==> !IsTitleLine(lines[j])
    ensures TitleOf(lines) == DefaultTitle
  {
    if |lines| > 0 {
      TitleOfWithoutTitleLine(lines[1..]);
    }
  }

  /** A second-level heading ("## ...") is never taken for the title. */
  lemma SubheadingIsNotTitle(line: string)
    requires StartsWith(Strip(line), "##")
    ensures !IsTitleLine(line)
  {
    assert Strip(line)[1] == '#';
  }

  /** The title of a report: split it into lines and search them. */
  method ExtractTitle(report: string) returns (title: string)
    ensures title == TitleOf(Split(report, '\n'))
  {
    var lines := Split(report, '\n');
    title := FirstTitle(lines);
  }

  /** The loop over the report's lines that stops at the first title line. */
  method FirstTitle(lines: seq<string>) returns (title: string)
    ensures title == TitleOf(lines)
  {
    title := DefaultTitle;
    var k := 0;
    while k < |lines|
      invariant 0 <= k <= |lines|
      invariant TitleOf(lines[k..]) == TitleOf(lines)
      invariant title == DefaultTitle
    {
      var stripped := Strip(lines[k]);
      if StartsWith(stripped, "# ") {
        title := stripped[2..];
        assert lines[k..][0] == lines[k];
        break;
      }
      assert lines[k..][1..] == lines[k + 1..];
      k := k + 1;
    }
  }


  // ---------------------------------------------------------------------------
  // File name: drop invalid characters, collapse separators, cut to 50

  /** Characters the first substitution keeps: word characters, whitespace and '-'. */
  predicate IsKept(c: char) {
    IsWordChar(c) || IsSpace(c) || c == '-'
  }

  /** Characters the second substitution collapses: '-' and whitespace. */
  predicate IsSeparator(c: char) {
    c == '-' || IsSpace(c)
  }

  predicate AllKept(s: string) {
    forall i :: 0 <= i < |s| ==> IsKept(s[i])
  }

  predicate NoneKept(s: string) {
    forall i :: 0 <= i < |s| ==> !IsKept(s[i])
  }

  predicate AllSeparators(s: string) {
    forall i :: 0 <= i < |s| ==> IsSeparator(s[i])
  }

  predicate NoSeparators(s: string) {
    forall i :: 0 <= i < |s| ==> !IsSeparator(s[i])
  }

  predicate AllWordChars(s: string) {
    forall i :: 0 <= i < |s| ==> IsWordChar(s[i])
  }

  /** Deletes every character outside word characters, whitespace and '-'. */
  function RemoveInvalid(s: string): (r: string)
    ensures |r| <= |s|
    ensures AllKept(r)
    ensures AllKept(s) ==> r == s
    ensures NoneKept(s) ==> r == []
    decreases |s|
  {
    if |s| == 0 then ""
    else (if IsKept(s[0]) then [s[0]] else "") + RemoveInvalid(s[1..])
  }

  /** Deleting works character by character: the text can be cut anywhere and
      the two halves cleaned separately. */
  lemma {:induction false} RemoveInvalidAppend(a: string, b: string)
    ensures RemoveInvalid(a + b) == RemoveInvalid(a) + RemoveInvalid(b)
    decreases |a|
  {
    if |a| > 0 {
      var head := if IsKept(a[0]) then [a[0]] else "";
      assert RemoveInvalid(a + b) == head + RemoveInvalid(a[1..] + b) by {
        assert (a + b)[0] == a[0];
        assert (a + b)[1..] == a[1..] + b;
      }
      RemoveInvalidAppend(a[1..], b);
      AppendAssoc(head, RemoveInvalid(a[1..]), RemoveInvalid(b));
    } else {
      assert a + b == b;
    }
  }

  /** Drops the run of separators at the front of `s`. */
  function SkipSeparators(s: string): (r: string)
    ensures |r| <= |s| && r == s[|s| - |r|..]
    ensures r == [] || !IsSeparator(r[0])
    ensures forall i :: 0 <= i < |s| - |r| ==> IsSeparator(s[i])
    decreases |s|
  {
    if |s| > 0 && IsSeparator(s[0]) then SkipSeparators(s[1..]) else s
  }

  /** Replaces every maximal run of separators with one underscore. */
  function Collapse(s: string): (r: string)
    ensures |r| <= |s|
    ensures NoSeparators(r)
    decreases |s|
  {
    if |s| == 0 then ""
    else if IsSeparator(s[0]) then "_" + Collapse(SkipSeparators(s[1..]))
    else [s[0]] + Collapse(s[1..])
  }

  /** Text holding only kept characters collapses to word characters only: every
      kept character that is not a separator is a word character, and each run of
      separators becomes '_'. */
  lemma {:induction false} CollapseWordChars(s: string)
    requires AllKept(s)
    ensures AllWordChars(Collapse(s))
    decreases |s|
  {
    if |s| > 0 {
      if IsSeparator(s[0]) {
        var t := SkipSeparators(s[1..]);
        KeptSuffix(s, |s| - |t|);
        CollapseWordChars(t);
        WordCharsConcat("_", Collapse(t));
      } else {
        KeptSuffix(s, 1);
        CollapseWordChars(s[1..]);
        WordCharsConcat([s[0]], Collapse(s[1..]));
      }
    }
  }

  lemma KeptSuffix(s: string, k: nat)
    requires AllKept(s) && k <= |s|
    ensures AllKept(s[k..])
  {
    forall i | 0 <= i < |s| - k ensures IsKept(s[k..][i]) {
      assert s[k..][i] == s[k + i];
    }
  }

  lemma WordCharsConcat(a: string, b: string)
    requires AllWordChars(a) && AllWordChars(b)
    ensures AllWordChars(a + b)
  {
    forall i | 0 <= i < |a + b| ensures IsWordChar((a + b)[i]) {
      if i < |a| { assert (a + b)[i] == a[i]; } else { assert (a + b)[i] == b[i - |a|]; }
    }
  }

  /** Text without separators is left unchanged. */
  lemma {:induction false} CollapseIdentity(s: string)
    requires NoSeparators(s)
    ensures Collapse(s) == s
    decreases |s|
  {
    if |s| > 0 {
      assert !IsSeparator(s[0]);
      assert NoSeparators(s[1..]) by {
        forall i | 0 <= i < |s| - 1 ensures !IsSeparator(s[1..][i]) {
          assert s[1..][i] == s[i + 1];
        }
      }
      CollapseIdentity(s[1..]);
      assert [s[0]] + s[1..] == s;
    }
  }

  /** A run of separators at the front becomes exactly one underscore. */
  lemma CollapseLeadingRun(run: string, rest: string)
    requires |run| > 0 && AllSeparators(run)
    requires rest == [] || !IsSeparator(rest[0])
    ensures Collapse(run + rest) == "_" + Collapse(rest)
  {
    var s := run + rest;
    assert IsSeparator(s[0]);
    assert s[1..] == run[1..] + rest;
    SkipRun(run[1..], rest);
  }

  /** A character other than a separator is kept as it is. */
  lemma CollapseKeepsHead(c: char, t: string)
    requires !IsSeparator(c)
    ensures Collapse([c] + t) == [c] + Collapse(t)
  {
    assert ([c] + t)[1..] == t;
  }

  /** A run of separators between text without separators and text that does not
      start with one becomes exactly one underscore. */
  lemma {:induction false} CollapseRun(w: string, run: string, rest: string)
    requires NoSeparators(w)
    requires |run| > 0 && AllSeparators(run)
    requires rest == [] || !IsSeparator(rest[0])
    ensures Collapse(w + run + rest) == w + "_" + Collapse(rest)
    decreases |w|
  {
    if |w| == 0 {
      assert w + run + rest == run + rest;
      CollapseLeadingRun(run, rest);
    } else {
      var t := w[1..] + run + rest;
      assert Collapse(w + run + rest) == [w[0]] + Collapse(t) by {
        assert w + run + rest == [w[0]] + t;
        CollapseKeepsHead(w[0], t);
      }
      assert Collapse(t) == w[1..] + "_" + Collapse(rest) by {
        CollapseRun(w[1..], run, rest);
      }
      PrependHead(w, "_", Collapse(rest));
    }
  }

  lemma {:induction false} SkipRun(run: string, rest: string)
    requires AllSeparators(run)
    requires rest == [] || !IsSeparator(rest[0])
    ensures SkipSeparators(run + rest) == rest
    decreases |run|
  {
    if |run| > 0 {
      assert (run + rest)[1..] == run[1..] + rest;
      SkipRun(run[1..], rest);
    } else {
      assert run + rest == rest;
    }
  }

  /** `s[:n]` */
  function Truncate(s: string, n: nat): (r: string)
    ensures |r| == if |s| <= n then |s| else n
    ensures r == s[..|r|]
  {
    if |s| <= n then s else s[..n]
  }

  /** The file name stem made from a title: word characters only, at most 50 of them. */
  function FileStem(title: string): (stem: string)
    ensures |stem| <= MaxStemLength
    ensures AllWordChars(stem)
  {
    var kept := RemoveInvalid(title);
    CollapseWordChars(kept);
    var collapsed := Collapse(kept);
    Truncate(collapsed, MaxStemLength)
  }

  function FileName(title: string): string {
    FileStem(title) + ".md"
  }

  /** `os.path.join("final_reports", filename)` with the POSIX separator. */
  function FilePath(title: string): string {
    ReportDirectory + "/" + FileName(title)
  }

  /** Cleaning a stem again changes nothing. */
  lemma FileStemIdempotent(title: string)
    ensures FileStem(FileStem(title)) == FileStem(title)
  {
    var stem := FileStem(title);
    forall i | 0 <= i < |stem|
      ensures IsKept(stem[i]) && !IsSeparator(stem[i])
    {
      WordCharIsNotSpace(stem[i]);
    }
    assert RemoveInvalid(stem) == stem;
    CollapseIdentity(stem);
  }

  /** A title with no word character, whitespace or '-' gives the file name ".md". */
  lemma PunctuationOnlyTitle(title: string)
    requires NoneKept(title)
    ensures FileName(title) == ".md"
  {
  }

  /** The path is the report directory, a slash, the stem and ".md": the file always
      lands directly in the report directory, and the extension's dot is the only
      dot of the file name. */
  lemma FilePathShape(title: string)
    ensures StartsWith(FilePath(title), "final_reports/")
    ensures EndsWith(FilePath(title), ".md")
    ensures |FilePath(title)| <= |"final_reports/"| + MaxStemLength + |".md"|
    ensures '/' !in FileName(title)
    ensures forall i :: 0 <= i < |FileName(title)| && FileName(title)[i] == '.' ==>
              i == |FileName(title)| - 3
  {
    var stem := FileStem(title);
    var name := FileName(title);
    var dir := ReportDirectory + "/";
    assert dir == "final_reports/";
    assert FilePath(title) == dir + name;
    assert StartsWith(dir + name, dir) by {
      assert (dir + name)[..|dir|] == dir;
    }
    assert EndsWith(dir + name, ".md") by {
      assert (dir + name)[|dir + name| - 3..] == name[|name| - 3..];
      assert name[|name| - 3..] == ".md";
    }
    MarkdownNameShape(stem);
  }

  /** A stem of word characters followed by ".md" holds no "/" and only the one ".". */
  lemma MarkdownNameShape(stem: string)
    requires AllWordChars(stem)
    ensures '/' !in stem + ".md"
    ensures forall i :: 0 <= i < |stem + ".md"| && (stem + ".md")[i] == '.' ==> i == |stem|
  {
    var name := stem + ".md";
    forall i | 0 <= i < |name|
      ensures name[i] != '/'
      ensures name[i] == '.' ==> i == |stem|
    {
      if i < |stem| {
        assert name[i] == stem[i] && IsWordChar(stem[i]);
      }
    }
  }


  // ---------------------------------------------------------------------------
  // The node

  /** What the node returns, for the writer model's reply `content`: the report,
      the path it is saved under, and one completion message naming that path. */
  function ReportUpdate(content: string): (u: Update)
    ensures u.finalReport == Some(content)
    ensures u.reportFilepath == Some(FilePath(TitleOf(Split(content, '\n'))))
    ensures u.messages == Some([Message(Plain, CompletionPrefix + u.reportFilepath.value)])
    ensures u.claimStatement.None? && u.supervisorMessages.None?
    ensures u.notes.None? && u.rawNotes.None?
  {
    var path := FilePath(TitleOf(Split(content, '\n')));
    Update(
      messages := Some([Message(Plain, CompletionPrefix + path)]),
      finalReport := Some(content),
      reportFilepath := Some(path))
  }

  /** `final_report_generation`: the request it sends to the writer model, and the
      update it returns once `content` is the reply. */
  method FinalReportGeneration(s: AgentState, content: string)
    returns (request: ReportRequest, u: Update)
    ensures request == ReportRequestOf(s)
    ensures u == ReportUpdate(content)
  {
    request := ReportRequest(s.claimStatement.GetOr(""), Join(s.notes, "\n"));
    var title := ExtractTitle(content);
    var filename := RemoveInvalid(title);
    filename := Collapse(filename);
    filename := Truncate(filename, MaxStemLength);
    filename := filename + ".md";
    var filepath := ReportDirectory + "/" + filename;
    u := Update(
      messages := Some([Message(Plain, CompletionPrefix + filepath)]),
      finalReport := Some(content),
      reportFilepath := Some(filepath));
  }
}
