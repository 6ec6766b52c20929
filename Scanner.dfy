/** The static scanner adapter: running `semgrep` on a temporary copy of the
    submitted code, classifying how the subprocess ended, and rendering the
    resulting record as the plain-text digest placed in the agent's prompt.

    The subprocess and `json.loads` are oracles handed in by the caller: `run`
    maps the exact invocation, together with the temporary files as they are
    when the process starts, to how the process ended; `parse` maps stdout to
    what the JSON decoder would have produced. */
module Scanner {
  import opened Wrappers
  import opened Text

  // ---------------------------------------------------------------------------
  // The parts of semgrep's JSON output that the adapter reads. A field that is
  // `None` is a key absent from its JSON object.

  datatype Snippet = Snippet(text: Option<string>)
  datatype Location = Location(snippet: Option<Snippet>)
  datatype Metadata = Metadata(cwe: Option<seq<string>>)
  datatype Extra = Extra(severity: Option<string>, metadata: Option<Metadata>)
  datatype Finding = Finding(
    checkId: Option<string>,
    message: Option<string>,
    extra: Option<Extra>,
    paths: Option<seq<Location>>)
  datatype Document = Document(results: Option<seq<Finding>>)

  /** What `json.loads(stdout)` yields: a JSON object, some other JSON value
      (on which the following `.get` raises `AttributeError` with the given
      message), or a `JSONDecodeError` with the given message. */
  datatype Decoded = Parsed(doc: Document) | NotAnObject(error: string) | Malformed(error: string)

  /** How `subprocess.run` ended. */
  datatype Outcome =
    | Exited(returnCode: int, stdout: string, stderr: string)
    | TimedOut
    | Raised(message: string)

  /** What is handed to `subprocess.run`: argument vector, environment, timeout. */
  datatype Invocation = Invocation(command: seq<string>, env: map<string, string>, timeout: nat)

  /** The scanner process: what it does given its invocation and the files it
      can read (path to contents). */
  type Runner = (Invocation, map<string, string>) -> Outcome

  /** The dictionary returned by `run_semgrep_scan`; on failure a `None` field is
      a key the dictionary does not have. */
  datatype ScanRecord =
    | Success(results: Document, findingsCount: int)
    | Failure(error: Option<string>, returnCode: Option<int>, stdout: Option<string>, stderr: Option<string>)

  const TokenVar := "SEMGREP_APP_TOKEN"
  const TimeoutSeconds: nat := 120
  const TimeoutError := "Semgrep scan timed out"
  const GenericError := "Semgrep scan failed"
  const NoIssuesMessage := "Semgrep scan completed successfully but found no security issues."
  /** `str(KeyError('text'))`, raised when a snippet object has no `text`. */
  const MissingTextError := "'text'"

  function Findings(doc: Document): seq<Finding> {
    doc.results.GetOr([])
  }

  // ---------------------------------------------------------------------------
  // Building the invocation

  /** The trimmed app token read from the parent environment (empty when unset). */
  function AppToken(parent: map<string, string>): string {
    Strip(if TokenVar in parent then parent[TokenVar] else "")
  }

  /** The subprocess environment: the parent's, with the app token replaced by
      its trimmed value when that value is non-empty, and nothing else changed. */
  function ScanEnv(parent: map<string, string>): (env: map<string, string>)
    ensures forall k :: k in parent && k != TokenVar ==> k in env && env[k] == parent[k]
    ensures forall k :: k in env ==> k in parent || k == TokenVar
    ensures AppToken(parent) != "" ==> TokenVar in env && env[TokenVar] == AppToken(parent)
    ensures AppToken(parent) == "" ==> env == parent
  {
    if AppToken(parent) != "" then parent[TokenVar := AppToken(parent)] else parent
  }

  /** The argument vector: `uvx` running `semgrep scan` with the automatic rule
      configuration, JSON output and no ignore files, on the temporary file. */
  function ScanCommand(path: string): (cmd: seq<string>)
    ensures |cmd| == 9 && cmd[8] == path
    ensures cmd[0] == "uvx" && cmd[2] == "semgrep" && "--json" in cmd && "--no-git-ignore" in cmd
    ensures cmd[4] == "--config" && cmd[5] == "auto"
  {
    ["uvx", "--quiet", "semgrep", "scan", "--config", "auto", "--json", "--no-git-ignore", path]
  }

  // ---------------------------------------------------------------------------
  // Classifying the outcome

  function ExceptionRecord(message: string): ScanRecord {
    Failure(Some("Semgrep scan failed: " + message), None, None, None)
  }

  function ParseFailureRecord(message: string, stdout: string, stderr: string): ScanRecord {
    Failure(Some("Failed to parse semgrep output: " + message), None, Some(Take(stdout, 500)), Some(Take(stderr, 500)))
  }

  function ScanFailedRecord(rc: int, stdout: string, stderr: string): ScanRecord {
    Failure(Some(GenericError), Some(rc), Some(Take(stdout, 500)), Some(Take(stderr, 2000)))
  }

  /** The record `run_semgrep_scan` returns for a subprocess outcome, stated by
      what stdout holds: a JSON object is a success whatever the exit code;
      the exit code only decides how output that is not JSON is reported. */
  function Classify(outcome: Outcome, parse: string -> Decoded): (r: ScanRecord)
    ensures r.Success? <==> outcome.Exited? && outcome.stdout != "" && parse(outcome.stdout).Parsed?
    ensures r.Success? ==> r.results == parse(outcome.stdout).doc
    ensures r.Success? ==> r.findingsCount == |Findings(r.results)|
    ensures r.Failure? ==> r.error.Some?
    ensures r.Failure? && r.returnCode.Some? ==> outcome.Exited? && r.returnCode.value == outcome.returnCode
    ensures r.Failure? && r.stdout.Some? ==> |r.stdout.value| <= 500
    ensures r.Failure? && r.stderr.Some? ==> |r.stderr.value| <= 2000
  {
    match outcome
    case TimedOut => Failure(Some(TimeoutError), None, None, None)
    case Raised(m) => ExceptionRecord(m)
    case Exited(rc, out, err) =>
      if out == "" then ScanFailedRecord(rc, out, err)
      else
        match parse(out)
        case Parsed(doc) => Success(doc, |Findings(doc)|)
        case NotAnObject(m) => ExceptionRecord(m)
        case Malformed(m) => if rc == 0 then ParseFailureRecord(m, out, err) else ScanFailedRecord(rc, out, err)
  }

  /** Valid JSON on stdout gives the same success record whatever the exit
      code and whatever stderr holds. */
  lemma ValidJsonIgnoresExitCode(rc1: int, rc2: int, out: string, err1: string, err2: string, parse: string -> Decoded)
    requires out != "" && parse(out).Parsed?
    ensures Classify(Exited(rc1, out, err1), parse) == Classify(Exited(rc2, out, err2), parse)
    ensures Classify(Exited(rc1, out, err1), parse) == Success(parse(out).doc, |Findings(parse(out).doc)|)
  {
  }

  /** A clean exit whose stdout does not decode reports the decoder's message,
      stdout and stderr cut to 500 characters, and no return code. */
  lemma CleanExitUnparseable(out: string, err: string, parse: string -> Decoded)
    requires out != "" && parse(out).Malformed?
    ensures Classify(Exited(0, out, err), parse) ==
            Failure(Some("Failed to parse semgrep output: " + parse(out).error), None,
                    Some(Take(out, 500)), Some(Take(err, 500)))
  {
  }

  /** Empty stdout, or a non-zero exit with stdout that does not decode, is the
      generic failure carrying the return code, stdout cut to 500 characters
      and stderr cut to 2000. */
  lemma NoUsableOutput(rc: int, out: string, err: string, parse: string -> Decoded)
    requires out == "" || (rc != 0 && parse(out).Malformed?)
    ensures Classify(Exited(rc, out, err), parse) ==
            Failure(Some(GenericError), Some(rc), Some(Take(out, 500)), Some(Take(err, 2000)))
  {
  }

  /** A timeout and any other exception are reported, never propagated. */
  lemma TimeoutAndExceptionRecords(m: string, parse: string -> Decoded)
    ensures Classify(TimedOut, parse) == Failure(Some("Semgrep scan timed out"), None, None, None)
    ensures Classify(Raised(m), parse) == Failure(Some("Semgrep scan failed: " + m), None, None, None)
  {
  }

  /** Stdout that decodes to a JSON value other than an object makes the
      following `.get` raise, which is reported like any other exception,
      whatever the exit code and stderr. */
  lemma NonObjectOutputRecord(rc: int, out: string, err: string, parse: string -> Decoded)
    requires out != "" && parse(out).NotAnObject?
    ensures Classify(Exited(rc, out, err), parse) ==
            Failure(Some("Semgrep scan failed: " + parse(out).error), None, None, None)
  {
  }

  // ---------------------------------------------------------------------------
  // The temporary files and the scan itself

  /** The directory of temporary files, path to contents. */
  class Workspace {
    var files: map<string, string>

    constructor ()
      ensures files == map[]
    {
      files := map[];
    }

    /** `run_semgrep_scan`: write the code to the fresh temporary file `tmp`,
        run the scanner on it, classify the outcome, and unlink the file on
        the way out whatever happened. A failing unlink is swallowed. Besides
        the record, returns what the scanner was started with: its invocation
        and the files it could read. */
    method RunScan(code: string, parentEnv: map<string, string>, tmp: string,
                   run: Runner, parse: string -> Decoded, unlinkSucceeds: bool)
      returns (r: ScanRecord, inv: Invocation, seen: map<string, string>)
      requires tmp !in files
      modifies this
      ensures inv == Invocation(ScanCommand(tmp), ScanEnv(parentEnv), TimeoutSeconds)
      ensures seen == old(files)[tmp := code]
      ensures inv.command[|inv.command| - 1] in seen && seen[inv.command[|inv.command| - 1]] == code
      ensures r == Classify(run(inv, seen), parse)
      ensures files == if unlinkSucceeds then old(files) else old(files)[tmp := code]
    {
      var token := Strip(if TokenVar in parentEnv then parentEnv[TokenVar] else "");
      files := files[tmp := code];

      // try
      var env := parentEnv;
      if token != "" {
        env := env[TokenVar := token];
      }
      var cmd := ["uvx", "--quiet", "semgrep", "scan", "--config", "auto", "--json", "--no-git-ignore", tmp];
      inv := Invocation(cmd, env, TimeoutSeconds);
      seen := files;
      var outcome := run(inv, seen);
      match outcome {
        case Exited(rc, out, err) =>
          if rc == 0 && out != "" {
            match parse(out) {
              case Parsed(doc) =>
                r := Success(doc, |Findings(doc)|);
              case NotAnObject(m) =>
                r := Failure(Some("Semgrep scan failed: " + m), None, None, None);
              case Malformed(m) =>
                r := Failure(Some("Failed to parse semgrep output: " + m), None, Some(Take(out, 500)), Some(Take(err, 500)));
            }
          } else {
            var parsed := false;
            if out != "" {
              match parse(out) {
                case Parsed(doc) =>
                  r := Success(doc, |Findings(doc)|);
                  parsed := true;
                case NotAnObject(m) =>
                  r := Failure(Some("Semgrep scan failed: " + m), None, None, None);
                  parsed := true;
                case Malformed(_) =>
              }
            }
            if !parsed {
              r := Failure(Some("Semgrep scan failed"), Some(rc), Some(Take(out, 500)), Some(Take(err, 2000)));
            }
          }
        case TimedOut =>
          r := Failure(Some("Semgrep scan timed out"), None, None, None);
        case Raised(m) =>
          r := Failure(Some("Semgrep scan failed: " + m), None, None, None);
      }

      // finally
      if unlinkSucceeds {
        files := files - {tmp};
      }
    }
  }

  // ---------------------------------------------------------------------------
  // The digest

  /** The parts of a failure digest, in order. */
  function FailureDetails(rec: ScanRecord): seq<string>
    requires rec.Failure?
  {
    ["Semgrep scan failed: " + rec.error.GetOr("Unknown error")]
    + (if rec.returnCode.Some? then ["return_code=" + IntToString(rec.returnCode.value)] else [])
    + (if rec.stderr.Some? && rec.stderr.value != "" then ["stderr: " + Take(rec.stderr.value, 500)] else [])
    + (if rec.stdout.Some? && rec.stdout.value != "" then ["stdout: " + Take(rec.stdout.value, 200)] else [])
  }

  function Header(count: int): string {
    "Semgrep found " + IntToString(count) + " security issue(s):\n"
  }

  function CheckId(f: Finding): string {
    f.checkId.GetOr("unknown")
  }

  function Message(f: Finding): string {
    f.message.GetOr("No message")
  }

  function Severity(f: Finding): string {
    if f.extra.Some? then f.extra.value.severity.GetOr("UNKNOWN") else "UNKNOWN"
  }

  function Cwes(f: Finding): seq<string> {
    if f.extra.Some? && f.extra.value.metadata.Some? then f.extra.value.metadata.value.cwe.GetOr([]) else []
  }

  /** The snippet text of the first location, "" when there is none; a snippet
      object without `text` raises `KeyError`. */
  function CodeSnippet(f: Finding): Result<string, string> {
    if f.paths.Some? && |f.paths.value| > 0 && f.paths.value[0].snippet.Some? then
      match f.paths.value[0].snippet.value.text
      case Some(t) => Ok(t)
      case None => Err(MissingTextError)
    else Ok("")
  }

  /** The line that opens entry `i` of the numbered list. */
  function EntryTitle(i: int, f: Finding): string {
    "\n" + IntToString(i) + ". " + CheckId(f) + " (Severity: " + Severity(f) + ")"
  }

  function EntryLines(i: int, f: Finding, snippet: string): seq<string> {
    [EntryTitle(i, f), "   Message: " + Message(f)]
    + (if |Cwes(f)| > 0 then ["   CWE: " + Join(", ", Cwes(f))] else [])
    + (if snippet != "" then ["   Code:\n   " + snippet] else [])
  }

  /** The lines of the numbered list, entry `i` (from 1) for `fs[i - 1]`. */
  function Entries(fs: seq<Finding>): Result<seq<string>, string> {
    if fs == [] then Ok([])
    else
      match Entries(fs[..|fs| - 1])
      case Err(e) => Err(e)
      case Ok(prev) =>
        match CodeSnippet(fs[|fs| - 1])
        case Err(e) => Err(e)
        case Ok(sn) => Ok(prev + EntryLines(|fs|, fs[|fs| - 1], sn))
  }

  /** `format_semgrep_results_for_agent`, or the message of the exception it raises. */
  function Digest(rec: ScanRecord): Result<string, string> {
    match rec
    case Failure(_, _, _, _) => Ok(Join(" | ", FailureDetails(rec)))
    case Success(doc, count) =>
      if count == 0 then Ok(NoIssuesMessage)
      else
        match Entries(Findings(doc))
        case Err(e) => Err(e)
        case Ok(lines) => Ok(Join("\n", [Header(count)] + lines))
  }

  /** The failure branch of the renderer: the detail list, appended to in turn. */
  method FailureParts(rec: ScanRecord) returns (details: seq<string>)
    requires rec.Failure?
    ensures details == FailureDetails(rec)
  {
    details := ["Semgrep scan failed: " + rec.error.GetOr("Unknown error")];
    if rec.returnCode.Some? {
      details := details + ["return_code=" + IntToString(rec.returnCode.value)];
    }
    if rec.stderr.Some? && rec.stderr.value != "" {
      details := details + ["stderr: " + Take(rec.stderr.value, 500)];
    }
    if rec.stdout.Some? && rec.stdout.value != "" {
      details := details + ["stdout: " + Take(rec.stdout.value, 200)];
    }
  }

  /** One iteration of the renderer's loop: the lines of entry `i` for `f`
      appended to `output`, or the `KeyError` its snippet lookup raises. */
  method AppendEntry(output: seq<string>, i: int, f: Finding) returns (r: Result<seq<string>, string>)
    ensures CodeSnippet(f).Err? ==> r == Err(MissingTextError)
    ensures CodeSnippet(f).Ok? ==> r == Ok(output + EntryLines(i, f, CodeSnippet(f).value))
  {
    var checkId := f.checkId.GetOr("unknown");
    var message := f.message.GetOr("No message");
    var severity := if f.extra.Some? then f.extra.value.severity.GetOr("UNKNOWN") else "UNKNOWN";
    var cwe := if f.extra.Some? && f.extra.value.metadata.Some? then f.extra.value.metadata.value.cwe.GetOr([]) else [];

    var snippet := "";
    if f.paths.Some? && |f.paths.value| > 0 {
      var location := f.paths.value[0];
      if location.snippet.Some? {
        if location.snippet.value.text.None? {
          return Err(MissingTextError);
        }
        snippet := location.snippet.value.text.value;
      }
    }

    var lines := output;
    lines := lines + ["\n" + IntToString(i) + ". " + checkId + " (Severity: " + severity + ")"];
    lines := lines + ["   Message: " + message];
    assert lines == output + [EntryTitle(i, f), "   Message: " + Message(f)];
    if |cwe| > 0 {
      lines := lines + ["   CWE: " + Join(", ", cwe)];
    }
    ghost var withCwe := lines;
    if snippet != "" {
      lines := lines + ["   Code:\n   " + snippet];
    }
    EntryLinesShape(i, f, snippet, output, withCwe, lines);
    return Ok(lines);
  }

  /** The renderer as the source writes it: the failure details and the output
      lines are lists appended to in turn, then joined. */
  method FormatForAgent(rec: ScanRecord) returns (digest: Result<string, string>)
    ensures digest == Digest(rec)
  {
    if !rec.Success? {
      var details := FailureParts(rec);
      return Ok(Join(" | ", details));
    }

    var findings := Findings(rec.results);
    var count := rec.findingsCount;
    if count == 0 {
      return Ok(NoIssuesMessage);
    }

    var output := ["Semgrep found " + IntToString(count) + " security issue(s):\n"];
    var i := 0;
    assert findings[..0] == [];
    while i < |findings|
      invariant 0 <= i <= |findings|
      invariant Entries(findings[..i]).Ok?
      invariant output == [Header(count)] + Entries(findings[..i]).value
    {
      var next := AppendEntry(output, i + 1, findings[i]);
      if next.Err? {
        EntriesErrorPersists(findings, i + 1);
        return Err(MissingTextError);
      }
      EntriesStep(findings, i, CodeSnippet(findings[i]).value);
      AppendAssoc([Header(count)], Entries(findings[..i]).value, EntryLines(i + 1, findings[i], CodeSnippet(findings[i]).value));
      output := next.value;
      i := i + 1;
    }
    assert findings[..i] == findings;
    return Ok(Join("\n", output));
  }

  /** Regrouping the appended lines; stated apart so the loop's proof stays small. */
  lemma AppendAssoc(a: seq<string>, b: seq<string>, c: seq<string>)
    ensures a + b + c == a + (b + c)
  {
  }

  lemma EntryLinesShape(i: int, f: Finding, snippet: string, before: seq<string>, withCwe: seq<string>, after: seq<string>)
    requires withCwe == before + [EntryTitle(i, f), "   Message: " + Message(f)]
                       + (if |Cwes(f)| > 0 then ["   CWE: " + Join(", ", Cwes(f))] else [])
    requires after == withCwe + (if snippet != "" then ["   Code:\n   " + snippet] else [])
    ensures after == before + EntryLines(i, f, snippet)
  {
  }

  lemma EntriesStep(fs: seq<Finding>, i: nat, snippet: string)
    requires i < |fs| && Entries(fs[..i]).Ok? && CodeSnippet(fs[i]) == Ok(snippet)
    ensures Entries(fs[..i + 1]) == Ok(Entries(fs[..i]).value + EntryLines(i + 1, fs[i], snippet))
  {
    assert fs[..i + 1][..i] == fs[..i];
  }

  /** The only error `Entries` reports is the missing snippet text. */
  lemma {:induction false} EntriesErrorIsMissingText(fs: seq<Finding>)
    ensures Entries(fs).Err? ==> Entries(fs).error == MissingTextError
  {
    if fs != [] {
      EntriesErrorIsMissingText(fs[..|fs| - 1]);
    }
  }

  /** Once a prefix of the findings fails to render, the whole list fails. */
  lemma {:induction false} EntriesErrorPersists(fs: seq<Finding>, n: nat)
    requires n <= |fs| && Entries(fs[..n]).Err?
    ensures Entries(fs) == Err(MissingTextError)
    decreases |fs| - n
  {
    EntriesErrorIsMissingText(fs[..n]);
    if n == |fs| {
      assert fs[..n] == fs;
    } else {
      assert fs[..n + 1][..n] == fs[..n];
      EntriesErrorPersists(fs, n + 1);
    }
  }

  // ---------------------------------------------------------------------------
  // Properties of the digest

  /** A line that opens a numbered entry: only those start with a newline. */
  predicate IsTitle(line: string) {
    |line| > 0 && line[0] == '\n'
  }

  /** The entry-opening lines of `lines`, in order. */
  function Titles(lines: seq<string>): seq<string> {
    if lines == [] then []
    else Titles(lines[..|lines| - 1]) + (if IsTitle(lines[|lines| - 1]) then [lines[|lines| - 1]] else [])
  }

  lemma {:induction false} TitlesConcat(a: seq<string>, b: seq<string>)
    ensures Titles(a + b) == Titles(a) + Titles(b)
    decreases |b|
  {
    if b != [] {
      assert (a + b)[..|a + b| - 1] == a + b[..|b| - 1];
      assert (a + b)[|a + b| - 1] == b[|b| - 1];
      TitlesConcat(a, b[..|b| - 1]);
    } else {
      assert a + b == a;
    }
  }

  lemma {:induction false} TitlesAreLines(lines: seq<string>, j: nat)
    requires j < |Titles(lines)|
    ensures Titles(lines)[j] in lines
  {
    var init := lines[..|lines| - 1];
    if j < |Titles(init)| {
      TitlesAreLines(init, j);
    }
  }

  /** Each entry contributes exactly one entry-opening line, its title. */
  lemma EntryLinesTitles(i: int, f: Finding, snippet: string)
    ensures Titles(EntryLines(i, f, snippet)) == [EntryTitle(i, f)]
  {
    var cwe := if |Cwes(f)| > 0 then ["   CWE: " + Join(", ", Cwes(f))] else [];
    var code := if snippet != "" then ["   Code:\n   " + snippet] else [];
    var head := [EntryTitle(i, f), "   Message: " + Message(f)];
    TitlesConcat(head + cwe, code);
    TitlesConcat(head, cwe);
    assert head[..1] == [EntryTitle(i, f)];
    assert Titles(head) == [EntryTitle(i, f)];
  }

  /** The list renders when, and only when, no finding has a snippet without text. */
  lemma {:induction false} EntriesSucceed(fs: seq<Finding>)
    ensures Entries(fs).Ok? <==> forall j :: 0 <= j < |fs| ==> CodeSnippet(fs[j]).Ok?
  {
    if fs != [] {
      var init := fs[..|fs| - 1];
      EntriesSucceed(init);
      assert forall j :: 0 <= j < |init| ==> init[j] == fs[j];
    }
  }

  /** The rendered list holds one title per finding, numbered 1 to `|fs|`, in input order. */
  lemma {:induction false} EntriesNumbered(fs: seq<Finding>)
    requires Entries(fs).Ok?
    ensures |Titles(Entries(fs).value)| == |fs|
    ensures forall j :: 0 <= j < |fs| ==> Titles(Entries(fs).value)[j] == EntryTitle(j + 1, fs[j])
  {
    if fs != [] {
      var init := fs[..|fs| - 1];
      var last := fs[|fs| - 1];
      EntriesNumbered(init);
      var prev := Entries(init).value;
      var sn := CodeSnippet(last).value;
      assert Entries(fs).value == prev + EntryLines(|fs|, last, sn);
      TitlesConcat(prev, EntryLines(|fs|, last, sn));
      EntryLinesTitles(|fs|, last, sn);
      var ts := Titles(Entries(fs).value);
      assert ts == Titles(prev) + [EntryTitle(|fs|, last)];
      forall j | 0 <= j < |fs|
        ensures ts[j] == EntryTitle(j + 1, fs[j])
      {
        if j < |init| {
          assert ts[j] == Titles(prev)[j];
          assert Titles(prev)[j] == EntryTitle(j + 1, init[j]);
          assert init[j] == fs[j];
        } else {
          assert j == |Titles(prev)|;
          assert ts[j] == EntryTitle(|fs|, last);
          assert j + 1 == |fs| && fs[j] == last;
        }
      }
    }
  }

  /** A failure digest starts with the error (or "Unknown error") and mentions
      the return code whenever there is one, 0 included, the first 500
      characters of a non-empty stderr and the first 200 of a non-empty stdout. */
  lemma FailureDigest(rec: ScanRecord)
    requires rec.Failure?
    ensures Digest(rec).Ok?
    ensures OccursAt(Digest(rec).value, "Semgrep scan failed: " + rec.error.GetOr("Unknown error"), 0)
    ensures rec.returnCode.Some? ==> Contains(Digest(rec).value, "return_code=" + IntToString(rec.returnCode.value))
    ensures rec.stderr.Some? && rec.stderr.value != "" ==> Contains(Digest(rec).value, "stderr: " + Take(rec.stderr.value, 500))
    ensures rec.stdout.Some? && rec.stdout.value != "" ==> Contains(Digest(rec).value, "stdout: " + Take(rec.stdout.value, 200))
  {
    var parts := FailureDetails(rec);
    var hasRc := if rec.returnCode.Some? then 1 else 0;
    var hasErr := if rec.stderr.Some? && rec.stderr.value != "" then 1 else 0;
    var hasOut := if rec.stdout.Some? && rec.stdout.value != "" then 1 else 0;
    assert |parts| == 1 + hasRc + hasErr + hasOut;
    JoinContainsParts(" | ", parts, 0);
    if hasRc == 1 {
      JoinContainsParts(" | ", parts, 1);
    }
    if hasErr == 1 {
      assert parts[1 + hasRc] == "stderr: " + Take(rec.stderr.value, 500);
      JoinContainsParts(" | ", parts, 1 + hasRc);
    }
    if hasOut == 1 {
      assert parts[1 + hasRc + hasErr] == "stdout: " + Take(rec.stdout.value, 200);
      JoinContainsParts(" | ", parts, 1 + hasRc + hasErr);
    }
  }

  /** A success with no findings renders as the fixed sentence. */
  lemma NoFindingsDigest(rec: ScanRecord)
    requires rec.Success? && rec.findingsCount == 0
    ensures Digest(rec) == Ok("Semgrep scan completed successfully but found no security issues.")
  {
  }

  /** A success with `K != 0` findings renders as the header naming `K`, then
      one entry per finding, numbered from 1 in input order; it fails, with
      the missing key's message, exactly when some snippet has no text. */
  lemma FindingsDigest(rec: ScanRecord)
    requires rec.Success? && rec.findingsCount != 0
    ensures var fs := Findings(rec.results);
            Digest(rec).Ok? <==> forall j :: 0 <= j < |fs| ==> CodeSnippet(fs[j]).Ok?
    ensures Digest(rec).Err? ==> Digest(rec).error == MissingTextError
    ensures Digest(rec).Ok? ==>
              OccursAt(Digest(rec).value, "Semgrep found " + IntToString(rec.findingsCount) + " security issue(s):\n", 0)
    ensures Digest(rec).Ok? ==>
              forall j :: 0 <= j < |Findings(rec.results)| ==>
                Contains(Digest(rec).value, EntryTitle(j + 1, Findings(rec.results)[j]))
  {
    var fs := Findings(rec.results);
    EntriesSucceed(fs);
    EntriesErrorIsMissingText(fs);
    if Entries(fs).Ok? {
      var parts := [Header(rec.findingsCount)] + Entries(fs).value;
      JoinContainsParts("\n", parts, 0);
      EntriesNumbered(fs);
      forall j | 0 <= j < |fs|
        ensures Contains(Digest(rec).value, EntryTitle(j + 1, fs[j]))
      {
        TitlesAreLines(Entries(fs).value, j);
        var k :| 0 <= k < |Entries(fs).value| && Entries(fs).value[k] == EntryTitle(j + 1, fs[j]);
        JoinContainsParts("\n", parts, k + 1);
      }
    }
  }

  /** The only way rendering fails is the missing snippet text. */
  lemma DigestErrorIsMissingText(rec: ScanRecord)
    ensures Digest(rec).Err? ==> Digest(rec) == Err(MissingTextError)
  {
    if rec.Success? && rec.findingsCount != 0 {
      EntriesErrorIsMissingText(Findings(rec.results));
    }
  }

  /** The digest's list of lines opens exactly `K` entries when the record
      came from a scan: the count in the header is the number of entries. */
  lemma ScanCountMatchesEntries(outcome: Outcome, parse: string -> Decoded)
    requires Classify(outcome, parse).Success?
    requires Entries(Findings(Classify(outcome, parse).results)).Ok?
    ensures var r := Classify(outcome, parse);
            |Titles([Header(r.findingsCount)] + Entries(Findings(r.results)).value)| == r.findingsCount
  {
    var r := Classify(outcome, parse);
    var lines := Entries(Findings(r.results)).value;
    EntriesNumbered(Findings(r.results));
    TitlesConcat([Header(r.findingsCount)], lines);
    assert [Header(r.findingsCount)][..0] == [];
  }

  /** A digest is never empty, so the prompt always carries a scanner section. */
  lemma DigestNonEmpty(rec: ScanRecord)
    requires Digest(rec).Ok?
    ensures Digest(rec).value != ""
  {
    if rec.Failure? {
      FailureDigest(rec);
    } else if rec.findingsCount != 0 {
      FindingsDigest(rec);
    }
  }

  /** Exit 0 with the document `{"results": []}` renders as the no-issues sentence. */
  lemma EmptyResultsScenario(out: string, err: string, parse: string -> Decoded)
    requires out != "" && parse(out) == Parsed(Document(Some([])))
    ensures Digest(Classify(Exited(0, out, err), parse)) == Ok(NoIssuesMessage)
  {
  }

  /** A scan that timed out renders as a digest saying so. */
  lemma TimeoutScenario(parse: string -> Decoded)
    ensures Digest(Classify(TimedOut, parse)) == Ok("Semgrep scan failed: Semgrep scan timed out")
    ensures Contains(Digest(Classify(TimedOut, parse)).value, "timed out")
  {
    var d := "Semgrep scan failed: Semgrep scan timed out";
    assert Join(" | ", ["Semgrep scan failed: " + TimeoutError]) == d;
    assert d[34..43] == "timed out";
    assert OccursAt(d, "timed out", 34);
  }
}
