/** The lesson planner screen: a configuration form, the streamed plan it
    accumulates, and the export and print actions on that plan. */
module LessonPlanner {
  import opened Wrappers
  import opened Errors
  import opened Strings
  import opened Types
  import opened GeminiService

  const DefaultConfig := LessonPlanConfig("", "5th Grade", "Science", "45 mins", "Interactive Learning")

  const GenerateErrorText := "**Error generating plan.** " + "Please check your connection " + "or try again."

  // ---------------------------------------------------------------------------
  // Export file name
  // ---------------------------------------------------------------------------

  /** `s.replace(/\s+/g, '-')`: every maximal run of whitespace becomes one
      dash. */
  function DashRuns(s: string): (r: string)
    ensures NoWhitespace(r)
    ensures |r| <= |s|
    decreases |s|
  {
    if s == [] then []
    else if IsWhitespace(s[0]) then
      var t := TrimStart(s);
      DashPrefix(DashRuns(t));
      "-" + DashRuns(t)
    else
      DashPrefix(DashRuns(s[1..]));
      [s[0]] + DashRuns(s[1..])
  }

  lemma DashPrefix(r: string)
    ensures forall c :: !IsWhitespace(c) && NoWhitespace(r) ==> NoWhitespace([c] + r)
  {
    forall c | !IsWhitespace(c) && NoWhitespace(r)
      ensures NoWhitespace([c] + r)
    {
      assert forall i :: 0 < i < |[c] + r| ==> ([c] + r)[i] == r[i - 1];
    }
  }

  /** Text without whitespace is left as it is. */
  lemma {:induction false} DashRunsKeepsWords(s: string)
    requires NoWhitespace(s)
    ensures DashRuns(s) == s
    decreases |s|
  {
    if s != [] {
      assert NoWhitespace(s[1..]) by {
        assert forall i :: 0 <= i < |s[1..]| ==> s[1..][i] == s[i + 1];
      }
      DashRunsKeepsWords(s[1..]);
    }
  }

  /** A whitespace run followed by a word boundary becomes a single dash. */
  lemma DashRunsOfRun(w: string, s: string)
    requires w != [] && AllWhitespace(w)
    requires s == [] || !IsWhitespace(s[0])
    ensures DashRuns(w + s) == "-" + DashRuns(s)
  {
    TrimStartOfRun(w, s);
  }

  lemma {:induction false} TrimStartOfRun(w: string, s: string)
    requires AllWhitespace(w)
    requires s == [] || !IsWhitespace(s[0])
    ensures TrimStart(w + s) == s
    decreases |w|
  {
    if w != [] {
      assert (w + s)[1..] == w[1..] + s;
      TrimStartOfRun(w[1..], s);
    } else {
      assert w + s == s;
    }
  }

  /** Dropping the leading whitespace of a text that is not all whitespace
      leaves whatever follows it untouched. */
  lemma {:induction false} TrimStartAppend(a: string, b: string)
    requires !AllWhitespace(a)
    ensures TrimStart(a + b) == TrimStart(a) + b
    decreases |a|
  {
    if IsWhitespace(a[0]) {
      assert (a + b)[1..] == a[1..] + b;
      TrimStartAppend(a[1..], b);
    }
  }

  /** A character that is not whitespace is kept as it is. */
  lemma DashRunsOfWordChar(c: char, s: string)
    requires !IsWhitespace(c)
    ensures DashRuns([c] + s) == [c] + DashRuns(s)
  {
    assert ([c] + s)[1..] == s;
  }

  /** A text that starts with whitespace starts with one dash. */
  lemma DashRunsOfSpace(s: string)
    requires s != [] && IsWhitespace(s[0])
    ensures DashRuns(s) == "-" + DashRuns(TrimStart(s))
  {
  }

  /** Where the boundary is not inside a whitespace run, the two sides are
      replaced independently. */
  lemma {:induction false} DashRunsSplit(a: string, b: string)
    requires a == [] || b == [] || !IsWhitespace(a[|a| - 1]) || !IsWhitespace(b[0])
    ensures DashRuns(a + b) == DashRuns(a) + DashRuns(b)
    decreases |a|
  {
    if a == [] {
      assert a + b == b;
    } else if !IsWhitespace(a[0]) {
      DashRunsSplit(a[1..], b);
      SplitAfterWordChar(a, b);
    } else if AllWhitespace(a) {
      SplitAfterRun(a, b);
    } else {
      var t := TrimStart(a);
      assert t[|t| - 1] == a[|a| - 1];
      DashRunsSplit(t, b);
      SplitAfterLeadingRun(a, b);
    }
  }

  lemma SplitAfterWordChar(a: string, b: string)
    requires a != [] && !IsWhitespace(a[0])
    requires DashRuns(a[1..] + b) == DashRuns(a[1..]) + DashRuns(b)
    ensures DashRuns(a + b) == DashRuns(a) + DashRuns(b)
  {
    var c, rest := a[0], a[1..];
    calc {
      DashRuns(a + b);
      { HeadAppend(a, b); }
      DashRuns([c] + (rest + b));
      { DashRunsOfWordChar(c, rest + b); }
      [c] + DashRuns(rest + b);
      [c] + (DashRuns(rest) + DashRuns(b));
      ([c] + DashRuns(rest)) + DashRuns(b);
      { DashRunsOfWordChar(c, rest); HeadAppend(a, []); assert a + [] == a; }
      DashRuns(a) + DashRuns(b);
    }
  }

  lemma HeadAppend(a: string, b: string)
    requires a != []
    ensures a + b == [a[0]] + (a[1..] + b)
  {
  }

  lemma SplitAfterRun(a: string, b: string)
    requires a != [] && AllWhitespace(a)
    requires b == [] || !IsWhitespace(b[0])
    ensures DashRuns(a + b) == DashRuns(a) + DashRuns(b)
  {
    DashRunsOfRun(a, b);
    DashRunsOfWholeRun(a);
  }

  /** A text that is one whitespace run becomes a single dash. */
  lemma DashRunsOfWholeRun(w: string)
    requires w != [] && AllWhitespace(w)
    ensures DashRuns(w) == "-"
  {
    TrimStartOfRun(w, []);
    assert w + [] == w;
    DashRunsOfSpace(w);
  }

  lemma SplitAfterLeadingRun(a: string, b: string)
    requires a != [] && IsWhitespace(a[0]) && !AllWhitespace(a)
    requires DashRuns(TrimStart(a) + b) == DashRuns(TrimStart(a)) + DashRuns(b)
    ensures DashRuns(a + b) == DashRuns(a) + DashRuns(b)
  {
    LeadingRunAppend(a, b);
    DashRunsOfSpace(a);
    AppendAssoc("-", DashRuns(TrimStart(a)), DashRuns(b));
  }

  lemma AppendAssoc(p: string, x: string, y: string)
    ensures p + (x + y) == (p + x) + y
  {
  }

  lemma LeadingRunAppend(a: string, b: string)
    requires a != [] && IsWhitespace(a[0]) && !AllWhitespace(a)
    ensures DashRuns(a + b) == "-" + DashRuns(TrimStart(a) + b)
  {
    DashRunsOfSpace(a + b);
    TrimStartAppend(a, b);
  }

  /** A whitespace run between a word and the rest becomes one dash, and the
      word is kept: "Plant  Cells" gives "Plant-Cells". */
  lemma DashRunsBetween(x: string, w: string, y: string)
    requires NoWhitespace(x)
    requires w != [] && AllWhitespace(w)
    requires y == [] || !IsWhitespace(y[0])
    ensures DashRuns(x + w + y) == x + "-" + DashRuns(y)
  {
    AppendAssoc(x, w, y);
    DashRunsSplit(x, w + y);
    DashRunsOfRun(w, y);
    DashRunsKeepsWords(x);
    AppendAssoc(x, "-", DashRuns(y));
  }

  /** Replacing runs a second time changes nothing. */
  lemma DashRunsIdempotent(s: string)
    ensures DashRuns(DashRuns(s)) == DashRuns(s)
  {
    DashRunsKeepsWords(DashRuns(s));
  }

  /** Lowercasing never introduces whitespace. */
  lemma ToLowerKeepsNoWhitespace(s: string)
    requires NoWhitespace(s)
    ensures NoWhitespace(ToLower(s))
  {
    forall i | 0 <= i < |s|
      ensures !IsWhitespace(ToLower(s)[i])
    {
      assert !IsWhitespace(s[i]);
    }
  }

  const ExportSuffix := "-lesson-plan.txt"

  lemma SuffixIsClean()
    ensures NoWhitespace(ExportSuffix) && NoUpper(ExportSuffix)
  {
  }

  /** Text free of whitespace and upper case stays so when joined. */
  lemma CleanAppend(a: string, b: string)
    requires NoWhitespace(a) && NoUpper(a) && NoWhitespace(b) && NoUpper(b)
    ensures NoWhitespace(a + b) && NoUpper(a + b)
  {
    assert forall i :: |a| <= i < |a + b| ==> (a + b)[i] == b[i - |a|];
  }

  /** The download name of `handleExportTxt`: the topic with whitespace runs
      dashed, lowercased, then the fixed suffix. It holds no whitespace and
      no upper-case letter, and it keeps the suffix. */
  function ExportFileName(topic: string): (name: string)
    ensures EndsWith(name, ExportSuffix)
    ensures name[..|name| - |ExportSuffix|] == ToLower(DashRuns(topic))
    ensures NoWhitespace(name) && NoUpper(name)
  {
    var slug := ToLower(DashRuns(topic));
    ToLowerKeepsNoWhitespace(DashRuns(topic));
    ToLowerProperties(DashRuns(topic));
    SuffixIsClean();
    CleanAppend(slug, ExportSuffix);
    var name := slug + ExportSuffix;
    assert name[|name| - |ExportSuffix|..] == ExportSuffix;
    assert name[..|name| - |ExportSuffix|] == slug;
    name
  }

  /** What the export and print actions produce: a text download, or the
      print page for a topic, grade, subject and plan. */
  datatype Download = Download(fileName: string, text: string)
  datatype PrintPage = PrintPage(topic: string, gradeLevel: string, subject: string, plan: string)

  // ---------------------------------------------------------------------------
  // The screen
  // ---------------------------------------------------------------------------

  class Planner {
    var loading: bool
    var content: string
    var showExportMenu: bool
    var config: LessonPlanConfig

    constructor()
      ensures !loading && content == "" && !showExportMenu && config == DefaultConfig
    {
      loading := false;
      content := "";
      showExportMenu := false;
      config := DefaultConfig;
    }

    /** The form's inputs: each replaces one field of the configuration. */
    method EditConfig(c: LessonPlanConfig)
      modifies this
      ensures config == c
      ensures loading == old(loading) && content == old(content) && showExportMenu == old(showExportMenu)
    {
      config := c;
    }

    /** The generate button's `disabled` attribute. */
    predicate GenerateDisabled()
      reads this
    {
      loading || config.topic == ""
    }

    /** `handleGenerate`, with the backend's stream as an input. An empty
        topic does nothing. Otherwise the plan is cleared and each forwarded
        chunk appended in order, so a stream that ends normally leaves the
        whole streamed text; one that throws leaves the fixed error text.
        Loading ends false either way. */
    method HandleGenerate(stream: Stream) returns (sent: Option<Request>)
      modifies this
      ensures config == old(config) && showExportMenu == old(showExportMenu)
      ensures old(config.topic) == "" ==> sent == None && content == old(content) && loading == old(loading)
      ensures old(config.topic) != "" ==>
        && sent == Some(LessonPlanRequest(old(config)))
        && !loading
        && content == (if stream.failure.None? then StreamText(stream.chunks) else GenerateErrorText)
    {
      if config.topic == "" {
        return None;
      }
      var request, delivered, outcome := StreamLessonPlan(config, stream);
      loading := true;
      content := "";
      AppendChunks(delivered);
      if outcome.Fail? {
        content := GenerateErrorText;
      }
      loading := false;
      sent := Some(request);
    }

    /** The `onChunk` callback, applied to each forwarded chunk in order:
        `setContent(prev => prev + chunk)`. */
    method AppendChunks(chunks: seq<string>)
      modifies this
      ensures content == old(content) + Concat(chunks)
      ensures loading == old(loading) && showExportMenu == old(showExportMenu) && config == old(config)
    {
      ghost var start := content;
      var i := 0;
      while i < |chunks|
        invariant 0 <= i <= |chunks|
        invariant content == start + Concat(chunks[..i])
        invariant loading == old(loading) && showExportMenu == old(showExportMenu) && config == old(config)
      {
        assert chunks[..i + 1][..i] == chunks[..i];
        content := content + chunks[i];
        i := i + 1;
      }
      assert chunks[..i] == chunks;
    }

    method ToggleExportMenu()
      modifies this
      ensures showExportMenu == !old(showExportMenu)
      ensures loading == old(loading) && content == old(content) && config == old(config)
    {
      showExportMenu := !showExportMenu;
    }

    /** `handleExportTxt`: nothing without a plan; otherwise the plan is
        downloaded under the export name and the menu closes. */
    method HandleExportTxt() returns (download: Option<Download>)
      modifies this
      ensures old(content) == "" ==> download == None && showExportMenu == old(showExportMenu)
      ensures old(content) != "" ==>
        download == Some(Download(ExportFileName(old(config.topic)), old(content))) && !showExportMenu
      ensures loading == old(loading) && content == old(content) && config == old(config)
    {
      if content == "" {
        return None;
      }
      download := Some(Download(ExportFileName(config.topic), content));
      showExportMenu := false;
    }

    /** `handlePrint`: nothing without a plan or when the print window
        cannot be opened; otherwise the page carries the topic, grade,
        subject and plan, and the menu closes. */
    method HandlePrint(windowOpened: bool) returns (page: Option<PrintPage>)
      modifies this
      ensures old(content) == "" ==> page == None && showExportMenu == old(showExportMenu)
      ensures old(content) != "" ==>
        (!showExportMenu &&
         page == (if windowOpened then Some(PrintPage(config.topic, config.gradeLevel, config.subject, content)) else None))
      ensures loading == old(loading) && content == old(content) && config == old(config)
    {
      if content == "" {
        return None;
      }
      page := if windowOpened then Some(PrintPage(config.topic, config.gradeLevel, config.subject, content)) else None;
      showExportMenu := false;
    }
  }
}
