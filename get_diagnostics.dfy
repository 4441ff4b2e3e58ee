// tools/GetDiagnostics: the editor annotations of one workspace file, or of
// every file open in a tab, reported as diagnostics.
module GetDiagnostics {
  import opened Wrappers
  import opened Text
  import opened Json
  import opened Ide
  import opened MCPResponseBuilder
  import opened NbUtils
  import Seqs

  const Denied: string := "File access denied: Path is not within any open project directory: "
  const FileScheme: string := "file://"

  /** The four severities and the source each one is attributed to. */
  datatype Severity = Error | Warning | Hint | Info
  {
    function Name(): string
    {
      match this
      case Error => "error"
      case Warning => "warning"
      case Hint => "hint"
      case Info => "info"
    }

    function Source(): string
    {
      match this
      case Error => "compiler"
      case Warning => "compiler"
      case Hint => "editor"
      case Info => "netbeans"
    }
  }

  /** DiagnosticData; a null code is left out when written. */
  datatype Diagnostic = Diagnostic(
    message: string,
    severity: Severity,
    filePath: string,
    line: int,
    column: int,
    code: Option<string>)

  /**
   * The severity an annotation type selects. The type is lower-cased and
   * tested for "error", then "warning" or "warn", then "hint"; a null type
   * or no match gives Info.
   */
  function Classify(annotationType: Option<string>): (k: Severity)
    ensures k == Error <==> annotationType.Some? && Contains(ToLower(annotationType.value), "error")
    ensures k == Warning <==> annotationType.Some? && !Contains(ToLower(annotationType.value), "error") &&
                              Contains(ToLower(annotationType.value), "warn")
    ensures k == Hint <==> annotationType.Some? && !Contains(ToLower(annotationType.value), "error") &&
                           !Contains(ToLower(annotationType.value), "warn") &&
                           Contains(ToLower(annotationType.value), "hint")
  {
    if annotationType.None? then Info
    else
      var lower := ToLower(annotationType.value);
      WarningMentionsWarn(lower);
      if Contains(lower, "error") then Error
      else if Contains(lower, "warning") || Contains(lower, "warn") then Warning
      else if Contains(lower, "hint") then Hint
      else Info
  }

  /** A type that mentions "warning" mentions "warn": the longer test adds nothing. */
  lemma WarningMentionsWarn(s: string)
    ensures Contains(s, "warning") ==> Contains(s, "warn")
  {
    if Contains(s, "warning") {
      ContainsPrefixOf(s, "warning", 4);
      assert "warning"[..4] == "warn";
    }
  }

  lemma LowerCharIdempotent(c: char)
    ensures LowerChar(LowerChar(c)) == LowerChar(c)
  {
  }

  /** The severity does not depend on the case of the annotation type. */
  lemma ClassifyIgnoresCase(t: string)
    ensures Classify(Some(ToLower(t))) == Classify(Some(t))
  {
    assert ToLower(ToLower(t)) == ToLower(t) by {
      forall i | 0 <= i < |t|
        ensures ToLower(ToLower(t))[i] == ToLower(t)[i]
      {
        LowerCharIdempotent(t[i]);
      }
    }
  }

  /** `msg` has `[code]` with the bracket at position i. */
  predicate BracketedAt(msg: string, i: int, code: string)
  {
    0 <= i && i + |code| + 1 < |msg| &&
    msg[i] == '[' && msg[i + 1..i + 1 + |code|] == code && msg[i + 1 + |code|] == ']'
  }

  /**
   * The code of a message: the text between its last '[' and its last ']',
   * when it has both and the '[' comes first.
   */
  function ExtractCode(msg: string): (r: Option<string>)
    ensures r.Some? ==> '[' !in r.value
    ensures r.Some? ==> BracketedAt(msg, LastIndexOf(msg, '['), r.value)
    ensures r.Some? ==> ']' !in msg[LastIndexOf(msg, '[') + |r.value| + 2..]
  {
    if '[' in msg && ']' in msg then
      var start := LastIndexOf(msg, '[');
      var end := LastIndexOf(msg, ']');
      if start < end && start >= 0 then
        var code := msg[start + 1..end];
        assert forall k :: 0 <= k < |code| ==> code[k] == msg[start + 1 + k];
        Some(code)
      else None
    else None
  }

  /**
   * A message has a code exactly when some ']' has a '[' before it and no
   * '[' after it.
   */
  lemma ExtractCodeIff(msg: string)
    ensures ExtractCode(msg).Some? <==>
      exists j :: 0 <= j < |msg| && msg[j] == ']' && '[' in msg[..j] && '[' !in msg[j + 1..]
  {
    var start := LastIndexOf(msg, '[');
    var end := LastIndexOf(msg, ']');
    if ExtractCode(msg).Some? {
      assert msg[end] == ']' && msg[start] == '[';
      assert msg[..end][start] == '[';
      var tail := msg[end + 1..];
      forall k | 0 <= k < |tail|
        ensures tail[k] != '['
      {
        assert tail[k] == msg[end + 1 + k];
      }
    } else {
      ExtractCodeAbsent(msg);
    }
  }

  lemma ExtractCodeAbsent(msg: string)
    requires ExtractCode(msg).None?
    ensures !exists j :: 0 <= j < |msg| && msg[j] == ']' && '[' in msg[..j] && '[' !in msg[j + 1..]
  {
    var start := LastIndexOf(msg, '[');
    forall j | 0 <= j < |msg| && msg[j] == ']' && '[' in msg[..j]
      ensures '[' in msg[j + 1..]
    {
      var end := LastIndexOf(msg, ']');
      var i :| 0 <= i < j && msg[..j][i] == '[';
      assert msg[i] == '[';
      assert start >= i && end >= j;
      assert msg[j + 1..][start - j - 1] == msg[start];
    }
  }

  /**
   * convertAnnotationToDiagnostic: nothing for a null annotation or a null or
   * blank message; otherwise the message, its severity and code, at the
   * given place.
   */
  function Convert(a: Option<Annotation>, filePath: string, line: int, column: int): (r: Option<Diagnostic>)
    ensures r.Some? <==> a.Some? && a.value.shortDescription.Some? && !IsBlank(a.value.shortDescription.value)
    ensures r.Some? ==> r.value.message == a.value.shortDescription.value &&
                        r.value.severity == Classify(a.value.annotationType) &&
                        r.value.code == ExtractCode(r.value.message) &&
                        r.value.filePath == filePath && r.value.line == line && r.value.column == column
  {
    if a.None? then None
    else
      var message := a.value.shortDescription;
      if message.None? || IsBlank(message.value) then None
      else Some(Diagnostic(message.value, Classify(a.value.annotationType), filePath, line, column,
                           ExtractCode(message.value)))
  }

  function AsList(d: Option<Diagnostic>): seq<Diagnostic>
  {
    if d.Some? then [d.value] else []
  }

  /** The diagnostics of a line's passive annotations, in order. */
  function PassiveDiagnostics(passive: seq<Option<Annotation>>, filePath: string, line: int): seq<Diagnostic>
  {
    if |passive| == 0 then []
    else PassiveDiagnostics(passive[..|passive| - 1], filePath, line) +
         AsList(Convert(passive[|passive| - 1], filePath, line, 0))
  }

  /** How many of a line's passive annotations are read before the line throws, if it does. */
  function PassiveRead(l: AnnotatedLine): (n: nat)
    requires l.passive.Some?
    ensures n <= |l.passive.value|
  {
    if l.failsAfter.None? || l.failsAfter.value > |l.passive.value| then |l.passive.value|
    else if l.failsAfter.value == 0 then 0
    else l.failsAfter.value - 1
  }

  /**
   * The diagnostics of one annotated line: the active annotation, then the
   * passive ones, each only when it was read before the line threw.
   */
  function LineDiagnostics(l: AnnotatedLine, filePath: string): seq<Diagnostic>
  {
    (if l.failsAfter == Some(0) then [] else AsList(Convert(l.active, filePath, l.line + 1, 0))) +
    (if l.passive.Some? then PassiveDiagnostics(l.passive.value[..PassiveRead(l)], filePath, l.line + 1) else [])
  }

  /** The diagnostics of the lines visited, the last one being the first line that throws. */
  function LinesDiagnostics(lines: seq<AnnotatedLine>, filePath: string): seq<Diagnostic>
  {
    if |lines| == 0 then []
    else if lines[0].failsAfter.Some? then LineDiagnostics(lines[0], filePath)
    else LineDiagnostics(lines[0], filePath) + LinesDiagnostics(lines[1..], filePath)
  }

  /** The annotated lines of a file's document, when the chain of lookups reaches them. */
  function AnnotatedLines(filePath: string, ide: Ide): Option<seq<AnnotatedLine>>
  {
    var f := FileAt(ide, filePath);
    if !f.managed || f.data.NotFound? then None
    else if f.data.cookie.None? || f.data.cookie.value.document.None? then None
    else f.data.cookie.value.document.value.annotations
  }

  /** What extractDiagnosticsFromFile gathers for a path. */
  function FileDiagnostics(filePath: string, ide: Ide): seq<Diagnostic>
  {
    match AnnotatedLines(filePath, ide)
    case None => []
    case Some(lines) => LinesDiagnostics(lines, filePath)
  }

  lemma LinesDiagnosticsStep(lines: seq<AnnotatedLine>, filePath: string, i: int)
    requires 0 <= i < |lines|
    ensures LinesDiagnostics(lines[i..], filePath) ==
            if lines[i].failsAfter.Some? then LineDiagnostics(lines[i], filePath)
            else LineDiagnostics(lines[i], filePath) + LinesDiagnostics(lines[i + 1..], filePath)
  {
    assert lines[i..][1..] == lines[i + 1..];
  }

  lemma PassiveStep(passive: seq<Option<Annotation>>, filePath: string, line: int, k: int)
    requires 0 <= k < |passive|
    ensures PassiveDiagnostics(passive[..k + 1], filePath, line) ==
            PassiveDiagnostics(passive[..k], filePath, line) + AsList(Convert(passive[k], filePath, line, 0))
  {
    Seqs.PrefixStep(passive, k);
  }

  /** One line of the loop: the active annotation, then the passive ones read before a throw. */
  method AddLine(l: AnnotatedLine, filePath: string) returns (ds: seq<Diagnostic>)
    ensures ds == LineDiagnostics(l, filePath)
  {
    ds := if l.failsAfter == Some(0) then [] else AsList(Convert(l.active, filePath, l.line + 1, 0));
    if l.passive.Some? {
      var passive := l.passive.value;
      var first := ds;
      for k := 0 to PassiveRead(l)
        invariant ds == first + PassiveDiagnostics(passive[..k], filePath, l.line + 1)
      {
        var d := Convert(passive[k], filePath, l.line + 1, 0);
        PassiveStep(passive, filePath, l.line + 1, k);
        Seqs.Assoc(first, PassiveDiagnostics(passive[..k], filePath, l.line + 1), AsList(d));
        if d.Some? {
          ds := ds + [d.value];
        } else {
          Seqs.AppendEmpty(ds);
        }
      }
    }
  }

  /**
   * extractDiagnosticsFromFile: walks the annotated lines, appending each
   * line's diagnostics, and keeps what it has gathered when a read throws.
   */
  method ExtractDiagnosticsFromFile(filePath: string, ide: Ide) returns (ds: seq<Diagnostic>)
    ensures ds == FileDiagnostics(filePath, ide)
  {
    ds := [];
    var annotations := AnnotatedLines(filePath, ide);
    if annotations.Some? {
      var lines := annotations.value;
      var i := 0;
      while i < |lines| && lines[i].failsAfter.None?
        invariant 0 <= i <= |lines|
        invariant ds + LinesDiagnostics(lines[i..], filePath) == LinesDiagnostics(lines, filePath)
      {
        var more := AddLine(lines[i], filePath);
        LinesDiagnosticsStep(lines, filePath, i);
        Seqs.Assoc(ds, more, LinesDiagnostics(lines[i + 1..], filePath));
        ds := ds + more;
        i := i + 1;
      }
      if i < |lines| {
        var more := AddLine(lines[i], filePath);
        LinesDiagnosticsStep(lines, filePath, i);
        ds := ds + more;
      } else {
        Seqs.AppendEmpty(ds);
      }
    }
  }

  /**
   * The file a tab shows on disk: its first activated node's DataObject and
   * that file's path on disk.
   */
  function TabFile(t: Tab): Option<string>
  {
    if t.nodes.None? || |t.nodes.value| == 0 then None
    else
      var node := t.nodes.value[0];
      if node.dataObject.None? then None else node.dataObject.value.diskPath
  }

  function TabDiagnostics(t: Tab, ide: Ide): seq<Diagnostic>
  {
    match TabFile(t)
    case None => []
    case Some(p) => FileDiagnostics(p, ide)
  }

  /** The per-tab lists concatenated in tab order. */
  function AllFilesDiagnostics(tabs: seq<Tab>, ide: Ide): seq<Diagnostic>
  {
    if |tabs| == 0 then []
    else AllFilesDiagnostics(tabs[..|tabs| - 1], ide) + TabDiagnostics(tabs[|tabs| - 1], ide)
  }

  /** getDiagnosticsForAllFiles' loop over the open tabs. */
  method DiagnosticsForAllFiles(ide: Ide) returns (ds: seq<Diagnostic>)
    ensures ds == AllFilesDiagnostics(ide.tabs, ide)
  {
    ds := [];
    for i := 0 to |ide.tabs|
      invariant ds == AllFilesDiagnostics(ide.tabs[..i], ide)
    {
      var t := ide.tabs[i];
      var p := TabFile(t);
      if p.Some? {
        var more := ExtractDiagnosticsFromFile(p.value, ide);
        ds := ds + more;
      }
      assert ide.tabs[..i + 1] == ide.tabs[..i] + [t];
      AllFilesSnoc(ide.tabs[..i], t, ide);
    }
    assert ide.tabs[..|ide.tabs|] == ide.tabs;
  }

  /** A diagnostic as Jackson writes it; a null code is left out. */
  function DiagnosticJson(d: Diagnostic): (j: Json)
    ensures Get(j, "code").Some? <==> d.code.Some?
    ensures Get(j, "severity") == Some(JStr(d.severity.Name()))
  {
    var fields := [("message", JStr(d.message)), ("severity", JStr(d.severity.Name())),
                   ("source", JStr(d.severity.Source())), ("filePath", JStr(d.filePath)),
                   ("line", JInt(d.line)), ("column", JInt(d.column))] +
                  (if d.code.Some? then [("code", JStr(d.code.value))] else []);
    LookupAt(fields, "severity", 1);
    if d.code.Some? then
      (LookupAt(fields, "code", 6); JObj(fields))
    else
      (LookupMissing(fields, "code"); JObj(fields))
  }

  function DiagnosticsJson(ds: seq<Diagnostic>): (j: Json)
    ensures j.JArr? && |j.items| == |ds|
    ensures forall i :: 0 <= i < |ds| ==> j.items[i] == DiagnosticJson(ds[i])
  {
    if |ds| == 0 then JArr([])
    else JArr([DiagnosticJson(ds[0])] + DiagnosticsJson(ds[1..]).items)
  }

  /** The path a uri names: one leading "file://" is dropped. */
  function PathOfUri(uri: string): (p: string)
    ensures StartsWith(uri, FileScheme) ==> FileScheme + p == uri
    ensures !StartsWith(uri, FileScheme) ==> p == uri
  {
    if StartsWith(uri, FileScheme) then uri[7..] else uri
  }

  /**
   * run: with a uri, the diagnostics of that workspace file (a path outside
   * the workspace gives the failure text); without one, those of every file
   * open in a tab.
   */
  method Run(uri: Option<string>, ide: Ide) returns (r: Reply)
    ensures uri.Some? && !IsPathWithinOpenProjects(PathOfUri(uri.value), ide.projects, ide.canonical) ==>
      r == TextReply("Failed to get diagnostics for file: " + Denied + PathOfUri(uri.value))
    ensures uri.Some? && IsPathWithinOpenProjects(PathOfUri(uri.value), ide.projects, ide.canonical) ==>
      r == DataReply(DiagnosticsJson(FileDiagnostics(PathOfUri(uri.value), ide)))
    ensures uri.None? ==> r == DataReply(DiagnosticsJson(AllFilesDiagnostics(ide.tabs, ide)))
  {
    if uri.Some? {
      var path := PathOfUri(uri.value);
      if !IsPathWithinOpenProjects(path, ide.projects, ide.canonical) {
        r := TextReply("Failed to get diagnostics for file: " + Denied + path);
      } else {
        var ds := ExtractDiagnosticsFromFile(path, ide);
        r := DataReply(DiagnosticsJson(ds));
      }
    } else {
      var ds := DiagnosticsForAllFiles(ide);
      r := DataReply(DiagnosticsJson(ds));
    }
  }

  /** Every diagnostic of a line sits one below the 0-based line, at column 0. */
  lemma {:induction false} PassivePlace(passive: seq<Option<Annotation>>, filePath: string, line: int)
    ensures forall d :: d in PassiveDiagnostics(passive, filePath, line) ==>
      d.line == line && d.column == 0 && d.filePath == filePath
  {
    if |passive| > 0 {
      PassivePlace(passive[..|passive| - 1], filePath, line);
    }
  }

  /** Every diagnostic reported for the visited lines sits at one of them, 1-based, column 0. */
  lemma {:induction false} ReportedPlaces(lines: seq<AnnotatedLine>, filePath: string)
    ensures forall d :: d in LinesDiagnostics(lines, filePath) ==>
      d.filePath == filePath && d.column == 0 && exists k :: 0 <= k < |lines| && d.line == lines[k].line + 1
  {
    if |lines| > 0 {
      var rest := if lines[0].failsAfter.Some? then [] else LinesDiagnostics(lines[1..], filePath);
      assert LinesDiagnostics(lines, filePath) == LineDiagnostics(lines[0], filePath) + rest;
      ReportedPlaces(lines[1..], filePath);
      if lines[0].passive.Some? {
        PassivePlace(lines[0].passive.value[..PassiveRead(lines[0])], filePath, lines[0].line + 1);
      }
      forall d | d in LinesDiagnostics(lines, filePath)
        ensures d.filePath == filePath && d.column == 0 && exists k :: 0 <= k < |lines| && d.line == lines[k].line + 1
      {
        if d in rest {
          var k :| 0 <= k < |lines[1..]| && d.line == lines[1..][k].line + 1;
          assert d.line == lines[k + 1].line + 1;
        } else {
          assert d.line == lines[0].line + 1;
        }
      }
    }
  }

  /**
   * The first line that throws cuts the report: what the lines before it
   * gave, then what that line gave before the throw; nothing after it.
   */
  lemma FailureKeepsEarlier(lines: seq<AnnotatedLine>, filePath: string, k: int)
    requires 0 <= k < |lines| && lines[k].failsAfter.Some?
    requires forall j :: 0 <= j < k ==> lines[j].failsAfter.None?
    ensures LinesDiagnostics(lines, filePath) ==
            LinesDiagnostics(lines[..k], filePath) + LineDiagnostics(lines[k], filePath)
  {
    assert lines == lines[..k] + lines[k..];
    LinesAppend(lines[..k], lines[k..], filePath);
    LinesDiagnosticsStep(lines, filePath, k);
  }

  /**
   * A throw inside a line keeps what that line gathered before it: its
   * diagnostics are a prefix of those it gives when nothing throws.
   */
  lemma ThrowKeepsLinePrefix(l: AnnotatedLine, filePath: string)
    ensures LineDiagnostics(l, filePath) <= LineDiagnostics(l.(failsAfter := None), filePath)
  {
    var full := l.(failsAfter := None);
    var active := AsList(Convert(l.active, filePath, l.line + 1, 0));
    if l.passive.Some? {
      var passive := l.passive.value;
      var p := PassiveDiagnostics(passive[..PassiveRead(l)], filePath, l.line + 1);
      var q := PassiveDiagnostics(passive, filePath, l.line + 1);
      assert passive[..PassiveRead(full)] == passive;
      PassivePrefix(passive, PassiveRead(l), filePath, l.line + 1);
      if l.failsAfter == Some(0) {
        assert LineDiagnostics(l, filePath) == [] + p;
        assert p == [];
      } else {
        assert (active + p) == (active + q)[..|active + p|];
      }
    }
  }

  /** The passive diagnostics of the first n annotations begin those of all of them. */
  lemma {:induction false} PassivePrefix(passive: seq<Option<Annotation>>, n: nat, filePath: string, line: int)
    requires n <= |passive|
    ensures PassiveDiagnostics(passive[..n], filePath, line) <= PassiveDiagnostics(passive, filePath, line)
  {
    if n == |passive| {
      assert passive[..n] == passive;
    } else {
      var init := passive[..|passive| - 1];
      PassivePrefix(init, n, filePath, line);
      assert init[..n] == passive[..n];
    }
  }

  /** Lines that do not throw report their diagnostics in order, line after line. */
  lemma {:induction false} LinesAppend(a: seq<AnnotatedLine>, b: seq<AnnotatedLine>, filePath: string)
    requires forall k :: 0 <= k < |a| ==> a[k].failsAfter.None?
    ensures LinesDiagnostics(a + b, filePath) == LinesDiagnostics(a, filePath) + LinesDiagnostics(b, filePath)
  {
    if |a| == 0 {
      assert a + b == b;
    } else {
      assert (a + b)[1..] == a[1..] + b;
      LinesAppend(a[1..], b, filePath);
    }
  }

  /** The all-files report of two groups of tabs is the two reports one after the other. */
  lemma {:induction false} AllFilesAppend(a: seq<Tab>, b: seq<Tab>, ide: Ide)
    ensures AllFilesDiagnostics(a + b, ide) == AllFilesDiagnostics(a, ide) + AllFilesDiagnostics(b, ide)
  {
    if |b| == 0 {
      Seqs.AppendEmpty(a);
      Seqs.AppendEmpty(AllFilesDiagnostics(a, ide));
    } else {
      var init, t := b[..|b| - 1], b[|b| - 1];
      Seqs.SplitLast(a, b);
      AllFilesSnoc(a + init, t, ide);
      AllFilesAppend(a, init, ide);
      Seqs.Assoc(AllFilesDiagnostics(a, ide), AllFilesDiagnostics(init, ide), TabDiagnostics(t, ide));
      AllFilesSnoc(init, t, ide);
    }
  }

  lemma AllFilesSnoc(tabs: seq<Tab>, t: Tab, ide: Ide)
    ensures AllFilesDiagnostics(tabs + [t], ide) == AllFilesDiagnostics(tabs, ide) + TabDiagnostics(t, ide)
  {
    Seqs.SnocPrefix(tabs, t);
  }
}
